/**
  The audit archiver: fetch a batch of old rows, write it to a file, delete it, until none is
  left. Each phase is a step of its own, interleaved with inserts and with another process
  that removes rows, and any phase may fail. No row is ever lost and no file of the run overwritten.
 */
module Archive {
  import opened Types
  import opened Extremes

  datatype Entry = Entry(createdAt: int, body: string)

  type Rows = map<Id, Entry>

  datatype Name = Name(first: Id, last: Id, cutoff: int)

  type Files = map<Name, Rows>

  datatype Phase = Idle | Fetched(batch: Rows) | Written(batch: Rows) | Finished | Aborted

  /**
    `files` are those of this run. The rest is for the proof alone: `ledger` holds every row there
    ever was, `gone` the ones that another process removed, `filed` the file each row went to.
   */
  datatype State = State(
    cutoff: int,
    size: nat,
    table: Rows,
    files: Files,
    archived: nat,
    phase: Phase,
    ledger: Rows,
    gone: set<Id>,
    filed: map<Id, Name>)

  /** How writing a file ends: in full, with the rows in place but an error after that, or with no file. */
  datatype WriteOutcome = Complete | FileOnly | NoFile

  datatype Op =
    | Fetch
    | Write(outcome: WriteOutcome)
    | Delete(committed: bool)
    | Insert(id: Id, entry: Entry)
    | Remove(ids: set<Id>)

  function OldIds(rows: Rows, cutoff: int): set<Id>
  {
    set i | i in rows && rows[i].createdAt < cutoff
  }

  /** The `n` least ids. */
  ghost function FirstIds(ids: set<Id>, n: nat): (r: set<Id>)
    ensures r <= ids
    decreases n
  {
    if ids == {} || n == 0 then {} else
      var m := Least(ids);
      {m} + FirstIds(ids - {m}, n - 1)
  }

  lemma {:induction false} FirstIdsCount(ids: set<Id>, n: nat)
    ensures |FirstIds(ids, n)| == if |ids| < n then |ids| else n
    decreases n
  {
    if ids != {} && n > 0 {
      var m := Least(ids);
      FirstIdsCount(ids - {m}, n - 1);
      assert m !in FirstIds(ids - {m}, n - 1);
    }
  }

  lemma {:induction false} FirstIdsAreLeast(ids: set<Id>, n: nat, x: Id, y: Id)
    requires x in FirstIds(ids, n) && y in ids && y !in FirstIds(ids, n)
    ensures x < y
    decreases n
  {
    var m := Least(ids);
    if x != m {
      FirstIdsAreLeast(ids - {m}, n - 1, x, y);
    }
  }

  ghost function Batch(table: Rows, cutoff: int, size: nat): Rows
  {
    map i | i in FirstIds(OldIds(table, cutoff), size) :: table[i]
  }

  ghost function NameOf(rows: Rows, cutoff: int): Name
    requires rows != map[]
  {
    Name(Least(rows.Keys), Greatest(rows.Keys), cutoff)
  }

  function Start(cutoff: int, size: nat, table: Rows): State
  {
    State(cutoff, size, table, map[], 0, Idle, table, {}, map[])
  }

  // ------------------------------------------------------------------- steps

  ghost function DoFetch(s: State): State
  {
    if s.phase != Idle then s
    else
      var batch := Batch(s.table, s.cutoff, s.size);
      s.(phase := if batch == map[] then Finished else Fetched(batch))
  }

  ghost function DoWrite(s: State, outcome: WriteOutcome): State
  {
    if !s.phase.Fetched? || s.phase.batch == map[] then s
    else if outcome == NoFile then s.(phase := Aborted)
    else
      var name := NameOf(s.phase.batch, s.cutoff);
      s.(files := s.files[name := s.phase.batch],
         filed := s.filed + map i | i in s.phase.batch :: name,
         phase := if outcome == Complete then Written(s.phase.batch) else Aborted)
  }

  function Victims(table: Rows, ids: set<Id>, cutoff: int): set<Id>
  {
    set i | i in ids && i in table && table[i].createdAt < cutoff
  }

  /** `delete_archived`: all of the batch or nothing. */
  function DoDelete(s: State, committed: bool): State
  {
    if !s.phase.Written? then s
    else
      var ids := s.phase.batch.Keys;
      if !committed || |Victims(s.table, ids, s.cutoff)| != |ids| then s.(phase := Aborted)
      else s.(table := s.table - Victims(s.table, ids, s.cutoff), archived := s.archived + |ids|, phase := Idle)
  }

  function DoInsert(s: State, id: Id, entry: Entry): State
  {
    if id in s.ledger then s else s.(table := s.table[id := entry], ledger := s.ledger[id := entry])
  }

  function DoRemove(s: State, ids: set<Id>): State
  {
    s.(table := map i | i in s.table && i !in ids :: s.table[i],
       gone := s.gone + set i | i in ids && i in s.table)
  }

  ghost function Step(s: State, op: Op): State
  {
    match op
    case Fetch => DoFetch(s)
    case Write(outcome) => DoWrite(s, outcome)
    case Delete(committed) => DoDelete(s, committed)
    case Insert(id, entry) => DoInsert(s, id, entry)
    case Remove(ids) => DoRemove(s, ids)
  }

  ghost function After(s: State, ops: seq<Op>): State
  {
    if ops == [] then s else Step(After(s, ops[..|ops| - 1]), ops[|ops| - 1])
  }

  // --------------------------------------------------------------- invariant

  ghost predicate InFile(files: Files, n: Name, i: Id)
  {
    n in files && i in files[n]
  }

  ghost predicate Faithful(rows: Rows, ledger: Rows)
  {
    forall i :: i in rows ==> i in ledger && rows[i] == ledger[i]
  }

  /** Each filed row is in one file, as it was in the table, and old enough. */
  ghost predicate FilesOk(s: State)
  {
    && (forall n, i :: InFile(s.files, n, i) <==> i in s.filed && s.filed[i] == n)
    && (forall n :: n in s.files ==> Faithful(s.files[n], s.ledger))
    && (forall i :: i in s.filed ==> i in s.ledger && s.ledger[i].createdAt < s.cutoff)
  }

  ghost predicate NamesOk(s: State)
  {
    forall n :: n in s.files ==> s.files[n] != map[] && n == NameOf(s.files[n], s.cutoff)
  }

  ghost predicate TableOk(s: State)
  {
    Faithful(s.table, s.ledger) && forall i :: i in s.gone ==> i in s.ledger && i !in s.table
  }

  /** Nothing is lost: every row is in the table, in a file, or was removed by somebody else. */
  ghost predicate NothingLost(s: State)
  {
    forall i :: i in s.ledger ==> i in s.table || i in s.gone || i in s.filed
  }

  ghost predicate PhaseOk(s: State)
  {
    match s.phase
    case Fetched(b) =>
      && b != map[] && Faithful(b, s.ledger)
      && forall i :: i in b ==> b[i].createdAt < s.cutoff && i !in s.filed
    case Written(b) => b != map[] && forall i :: i in b ==> i in s.filed
    case _ => true
  }

  ghost predicate InHand(s: State, i: Id)
  {
    s.phase.Written? && i in s.phase.batch
  }

  /** What has been filed and is no longer in hand has left the table through this run. */
  ghost predicate FiledLeft(s: State)
  {
    s.phase != Aborted ==> forall i :: i in s.filed && !InHand(s, i) ==> i !in s.table && i !in s.gone
  }

  ghost predicate CountOk(s: State)
  {
    s.phase != Aborted ==> s.archived + (if s.phase.Written? then |s.phase.batch| else 0) == |s.filed|
  }

  ghost predicate Inv(s: State)
  {
    FilesOk(s) && NamesOk(s) && TableOk(s) && NothingLost(s) && PhaseOk(s) && FiledLeft(s) && CountOk(s)
  }

  lemma FirstIsMember(rows: Rows, cutoff: int)
    requires rows != map[]
    ensures NameOf(rows, cutoff).first in rows
  {
    assert rows.Keys != {};
  }

  /** A new batch gets a name that no earlier file has. */
  lemma FreshName(s: State)
    requires FilesOk(s) && NamesOk(s) && PhaseOk(s) && s.phase.Fetched?
    ensures NameOf(s.phase.batch, s.cutoff) !in s.files
  {
    hide NameOf;
    var n := NameOf(s.phase.batch, s.cutoff);
    FirstIsMember(s.phase.batch, s.cutoff);
    assert n.first !in s.filed;
    assert !InFile(s.files, n, n.first);
    if n in s.files {
      FirstIsMember(s.files[n], s.cutoff);
    }
  }

  lemma FetchKeeps(s: State)
    requires Inv(s)
    ensures Inv(DoFetch(s))
  {
    hide NameOf, FilesOk, NamesOk, FirstIds;
    SameFiles(s, DoFetch(s));
    if s.phase == Idle {
      BatchIsOld(s.table, s.cutoff, s.size);
    }
  }

  lemma BatchIsOld(table: Rows, cutoff: int, size: nat)
    ensures forall i :: i in Batch(table, cutoff, size) ==>
      i in table && Batch(table, cutoff, size)[i] == table[i] && table[i].createdAt < cutoff
    ensures size > 0 && Batch(table, cutoff, size) == map[] ==> OldIds(table, cutoff) == {}
  {
    assert forall i :: i in FirstIds(OldIds(table, cutoff), size) ==> i in OldIds(table, cutoff);
    FirstIdsCount(OldIds(table, cutoff), size);
    if size > 0 && OldIds(table, cutoff) != {} {
      var i :| i in FirstIds(OldIds(table, cutoff), size);
      assert i in Batch(table, cutoff, size);
    }
  }

  /** Steps that leave the files alone and only extend the ledger. */
  lemma SameFiles(s: State, t: State)
    requires FilesOk(s) && NamesOk(s)
    requires t.files == s.files && t.filed == s.filed && t.cutoff == s.cutoff
    requires forall i :: i in s.ledger ==> i in t.ledger && t.ledger[i] == s.ledger[i]
    ensures FilesOk(t) && NamesOk(t)
  {
    hide NameOf;
    forall n | n in t.files ensures Faithful(t.files[n], t.ledger) {
      assert Faithful(s.files[n], s.ledger);
    }
  }

  lemma WriteNames(s: State, outcome: WriteOutcome)
    requires NamesOk(s) && PhaseOk(s) && s.phase.Fetched? && outcome != NoFile
    ensures NamesOk(DoWrite(s, outcome))
  {
    hide NameOf;
  }

  lemma WriteFiles(s: State, outcome: WriteOutcome)
    requires FilesOk(s) && NamesOk(s) && PhaseOk(s) && s.phase.Fetched? && outcome != NoFile
    ensures FilesOk(DoWrite(s, outcome))
  {
    FreshName(s);
    hide NameOf, NamesOk;
    var b, name, t := s.phase.batch, NameOf(s.phase.batch, s.cutoff), DoWrite(s, outcome);
    forall n, i ensures InFile(t.files, n, i) <==> i in t.filed && t.filed[i] == n {
      assert InFile(s.files, n, i) <==> i in s.filed && s.filed[i] == n;
    }
    forall i | i in t.filed ensures i in t.ledger && t.ledger[i].createdAt < t.cutoff {
      assert i in b ==> b[i] == s.ledger[i];
    }
  }

  lemma WriteRows(s: State, outcome: WriteOutcome)
    requires Inv(s) && s.phase.Fetched? && outcome != NoFile
    ensures var t := DoWrite(s, outcome); TableOk(t) && NothingLost(t) && PhaseOk(t) && FiledLeft(t)
  {
    hide NameOf, FilesOk, NamesOk, CountOk;
    var b, t := s.phase.batch, DoWrite(s, outcome);
    assert forall i :: i in t.filed <==> i in s.filed || i in b;
  }

  lemma WriteCounts(s: State, outcome: WriteOutcome)
    requires Inv(s) && s.phase.Fetched? && outcome != NoFile
    ensures CountOk(DoWrite(s, outcome))
  {
    hide NameOf, FilesOk, NamesOk, TableOk, NothingLost, FiledLeft;
    var b, name := s.phase.batch, NameOf(s.phase.batch, s.cutoff);
    MergedSize(s.filed, map i | i in b :: name, b);
  }

  lemma WriteKeeps(s: State, outcome: WriteOutcome)
    requires Inv(s)
    ensures Inv(DoWrite(s, outcome))
  {
    if s.phase.Fetched? && outcome != NoFile {
      WriteNames(s, outcome);
      WriteFiles(s, outcome);
      WriteRows(s, outcome);
      WriteCounts(s, outcome);
      hide FilesOk, NamesOk, TableOk, NothingLost, PhaseOk, FiledLeft, CountOk, DoWrite;
    } else {
      hide NameOf, FilesOk, NamesOk;
      SameFiles(s, DoWrite(s, outcome));
    }
  }

  lemma MergedSize(a: map<Id, Name>, b: map<Id, Name>, rows: Rows)
    requires b.Keys == rows.Keys && forall i :: i in rows ==> i !in a
    ensures |a + b| == |a| + |rows|
  {
    assert (a + b).Keys == a.Keys + b.Keys && a.Keys !! b.Keys;
    assert |a + b| == |(a + b).Keys| && |a| == |a.Keys| && |rows| == |rows.Keys|;
  }

  lemma DeleteKeeps(s: State, committed: bool)
    requires Inv(s)
    ensures Inv(DoDelete(s, committed))
  {
    hide NameOf, FilesOk, NamesOk, Victims;
    SameFiles(s, DoDelete(s, committed));
    if s.phase.Written? && DoDelete(s, committed).phase == Idle {
      var b := s.phase.batch;
      WholeBatch(s.table, b.Keys, s.cutoff);
      assert |b| == |b.Keys|;
    }
  }

  /** If as many rows match as were asked for, they all did. */
  lemma WholeBatch(table: Rows, ids: set<Id>, cutoff: int)
    ensures Victims(table, ids, cutoff) <= ids * table.Keys
    ensures |Victims(table, ids, cutoff)| == |ids| ==> Victims(table, ids, cutoff) == ids
  {
    var v := Victims(table, ids, cutoff);
    assert ids == v + (ids - v);
    assert |ids| == |v| + |ids - v|;
  }

  lemma SamePhase(s: State, t: State)
    requires PhaseOk(s) && CountOk(s)
    requires t.phase == s.phase && t.cutoff == s.cutoff && t.filed == s.filed && t.archived == s.archived
    requires forall i :: i in s.ledger ==> i in t.ledger && t.ledger[i] == s.ledger[i]
    ensures PhaseOk(t) && CountOk(t)
  {
  }

  /** The table, the ledger and the removed rows move together; nothing filed comes back. */
  lemma RowsMove(s: State, t: State)
    requires TableOk(s) && NothingLost(s) && FiledLeft(s)
    requires t.phase == s.phase && t.filed == s.filed
    requires TableOk(t)
    requires forall i :: i in t.ledger && i !in t.table ==> i in s.ledger && (i in t.gone || i !in s.table)
    requires forall i :: i in s.gone ==> i in t.gone
    requires forall i :: i in t.table || i in t.gone ==> i in s.table || i in s.gone || i !in s.filed
    ensures NothingLost(t) && FiledLeft(t)
  {
  }

  lemma FiledKnown(s: State)
    requires FilesOk(s)
    ensures forall i :: i in s.filed ==> i in s.ledger
  {
  }

  lemma InsertKeeps(s: State, id: Id, entry: Entry)
    requires Inv(s)
    ensures Inv(DoInsert(s, id, entry))
  {
    hide NameOf, FilesOk, NamesOk, PhaseOk, CountOk, NothingLost, FiledLeft;
    var t := DoInsert(s, id, entry);
    FiledKnown(s);
    SameFiles(s, t);
    SamePhase(s, t);
    RowsMove(s, t);
  }

  lemma RemoveKeeps(s: State, ids: set<Id>)
    requires Inv(s)
    ensures Inv(DoRemove(s, ids))
  {
    hide NameOf, FilesOk, NamesOk, PhaseOk, CountOk, NothingLost, FiledLeft;
    var t := DoRemove(s, ids);
    SameFiles(s, t);
    SamePhase(s, t);
    RowsMove(s, t);
  }

  lemma StepKeepsInv(s: State, op: Op)
    requires Inv(s)
    ensures Inv(Step(s, op))
  {
    hide Inv, DoFetch, DoWrite, DoDelete, DoInsert, DoRemove;
    match op
    case Fetch => FetchKeeps(s);
    case Write(outcome) => WriteKeeps(s, outcome);
    case Delete(committed) => DeleteKeeps(s, committed);
    case Insert(id, entry) => InsertKeeps(s, id, entry);
    case Remove(ids) => RemoveKeeps(s, ids);
  }

  lemma {:induction false} RunKeepsInv(s: State, ops: seq<Op>)
    requires Inv(s)
    ensures Inv(After(s, ops))
  {
    hide Inv, Step;
    if ops != [] {
      RunKeepsInv(s, ops[..|ops| - 1]);
      StepKeepsInv(After(s, ops[..|ops| - 1]), ops[|ops| - 1]);
    }
  }

  lemma StartOk(cutoff: int, size: nat, table: Rows)
    ensures Inv(Start(cutoff, size, table))
  {
  }

  // ---------------------------------------------------------------- theorems

  ghost predicate InExactlyOne(files: Files, i: Id, e: Entry)
  {
    exists n :: InFile(files, n, i) && files[n][i] == e && forall m :: InFile(files, m, i) ==> m == n
  }

  lemma {:induction false} LedgerGrows(s: State, ops: seq<Op>)
    ensures After(s, ops).cutoff == s.cutoff && After(s, ops).size == s.size
    ensures forall i :: i in s.ledger ==> i in After(s, ops).ledger && After(s, ops).ledger[i] == s.ledger[i]
  {
    if ops != [] {
      LedgerGrows(s, ops[..|ops| - 1]);
      StepGrows(After(s, ops[..|ops| - 1]), ops[|ops| - 1]);
      hide Step;
    }
  }

  lemma StepGrows(s: State, op: Op)
    ensures Step(s, op).cutoff == s.cutoff && Step(s, op).size == s.size
    ensures forall i :: i in s.ledger ==> i in Step(s, op).ledger && Step(s, op).ledger[i] == s.ledger[i]
  {
    hide NameOf, Batch, Victims;
  }

  lemma FiledOnce(s: State, i: Id)
    requires FilesOk(s) && i in s.filed
    ensures i in s.ledger && s.ledger[i].createdAt < s.cutoff && InExactlyOne(s.files, i, s.ledger[i])
  {
    assert InFile(s.files, s.filed[i], i);
    assert Faithful(s.files[s.filed[i]], s.ledger);
  }

  /**
    At every point of every run, whatever fails and whoever else writes: a row that was in the
    table is still there unchanged, or is in exactly one of this run's files unchanged, or was
    removed by somebody else; and only the last can happen to a row that is not old.
   */
  lemma NoRowIsLost(cutoff: int, size: nat, table: Rows, ops: seq<Op>, i: Id)
    requires i in table
    ensures var e := After(Start(cutoff, size, table), ops);
      && (i in e.table ==> e.table[i] == table[i])
      && (i in e.table || i in e.gone || InExactlyOne(e.files, i, table[i]))
      && (table[i].createdAt >= cutoff ==> i in e.table || i in e.gone)
  {
    var s := Start(cutoff, size, table);
    var e := After(s, ops);
    StartOk(cutoff, size, table);
    RunKeepsInv(s, ops);
    LedgerGrows(s, ops);
    hide FilesOk, NamesOk, PhaseOk, InExactlyOne;
    if i in e.filed {
      FiledOnce(e, i);
    }
  }

  /** The run ends by finding no batch: then the old rows are exactly the filed ones, and the total counts them. */
  lemma FinishedIsComplete(cutoff: int, size: nat, table: Rows, ops: seq<Op>)
    requires size > 0
    requires var e := After(Start(cutoff, size, table), ops); e.phase == Idle && Step(e, Fetch).phase == Finished
    ensures var e := After(Start(cutoff, size, table), ops);
      var archived := OldIds(e.ledger, cutoff) - e.gone;
      && e.archived == |archived|
      && (forall i :: i in archived ==> InExactlyOne(e.files, i, e.ledger[i]))
      && (forall n, i :: InFile(e.files, n, i) ==> i in archived && i !in e.table)
  {
    var s := Start(cutoff, size, table);
    var e := After(s, ops);
    StartOk(cutoff, size, table);
    RunKeepsInv(s, ops);
    LedgerGrows(s, ops);
    BatchIsOld(e.table, cutoff, size);
    var archived := OldIds(e.ledger, cutoff) - e.gone;
    FinishedIds(e, archived);
    forall i | i in archived ensures InExactlyOne(e.files, i, e.ledger[i]) {
      FiledOnce(e, i);
    }
    forall n, i | InFile(e.files, n, i) ensures i in archived && i !in e.table {
      FileIsFiled(e, n, i);
    }
  }

  lemma FileIsFiled(s: State, n: Name, i: Id)
    requires FilesOk(s) && InFile(s.files, n, i)
    ensures i in s.filed
  {
  }

  lemma FinishedIds(e: State, archived: set<Id>)
    requires Inv(e) && e.phase == Idle && OldIds(e.table, e.cutoff) == {}
    requires archived == OldIds(e.ledger, e.cutoff) - e.gone
    ensures archived == e.filed.Keys && e.archived == |archived|
    ensures forall i :: i in e.filed ==> i !in e.table
  {
    hide NamesOk, PhaseOk;
    forall i | i in archived ensures i in e.filed {
      assert i !in OldIds(e.table, e.cutoff);
    }
    assert forall i :: i in e.filed ==> i in archived;
    assert archived == e.filed.Keys;
    assert |e.filed| == |e.filed.Keys|;
  }

  /** Nobody else removes rows, and whatever is inserted is not old. */
  ghost predicate Undisturbed(cutoff: int, ops: seq<Op>)
  {
    forall k :: 0 <= k < |ops| ==> !ops[k].Remove? && (ops[k].Insert? ==> ops[k].entry.createdAt >= cutoff)
  }

  lemma {:induction false} UndisturbedOldRows(s: State, ops: seq<Op>)
    requires Undisturbed(s.cutoff, ops)
    ensures OldIds(After(s, ops).ledger, s.cutoff) == OldIds(s.ledger, s.cutoff)
    ensures After(s, ops).gone == s.gone
  {
    if ops != [] {
      UndisturbedOldRows(s, ops[..|ops| - 1]);
      assert !ops[|ops| - 1].Remove?;
      hide NameOf, Batch, Victims;
    }
  }

  /** Undisturbed, a finished run has moved every old row of the table to exactly one file and reports how many. */
  lemma UndisturbedTotal(cutoff: int, size: nat, table: Rows, ops: seq<Op>)
    requires size > 0 && Undisturbed(cutoff, ops)
    requires var e := After(Start(cutoff, size, table), ops); e.phase == Idle && Step(e, Fetch).phase == Finished
    ensures var e := After(Start(cutoff, size, table), ops);
      && e.archived == |OldIds(table, cutoff)|
      && (forall i :: i in OldIds(table, cutoff) ==> InExactlyOne(e.files, i, table[i]) && i !in e.table)
      && (forall i :: i in table && i !in OldIds(table, cutoff) ==> i in e.table && e.table[i] == table[i])
  {
    var s := Start(cutoff, size, table);
    var e := After(s, ops);
    FinishedIsComplete(cutoff, size, table, ops);
    UndisturbedOldRows(s, ops);
    LedgerGrows(s, ops);
    hide InExactlyOne;
    assert OldIds(e.ledger, cutoff) - e.gone == OldIds(table, cutoff);
    forall i | i in OldIds(table, cutoff) ensures InExactlyOne(e.files, i, table[i]) && i !in e.table {
      OneIsSome(e.files, i, table[i]);
    }
    forall i | i in table && i !in OldIds(table, cutoff) ensures i in e.table && e.table[i] == table[i] {
      NoRowIsLost(cutoff, size, table, ops, i);
    }
  }

  lemma OneIsSome(files: Files, i: Id, e: Entry)
    ensures InExactlyOne(files, i, e) ==> exists n :: InFile(files, n, i)
  {
  }

  // ------------------------------------------------------- the program's form

  datatype Result = Ok(total: nat) | Err

  /** What may go wrong in one round. */
  datatype Fault = Fault(write: WriteOutcome, committed: bool)

  /** The table is that of the state, and the files are those from before the run and the run's own. */
  ghost predicate Mirrors(e: State, table: Rows, files: Files, others: Files)
  {
    table == e.table && files == others + e.files
  }

  function FaultAt(faults: seq<Fault>, round: nat): Fault
  {
    if round < |faults| then faults[round] else Fault(Complete, true)
  }

  /** Every round goes through. */
  predicate Harmless(faults: seq<Fault>)
  {
    forall k :: 0 <= k < |faults| ==> faults[k] == Fault(Complete, true)
  }

  lemma HarmlessAt(faults: seq<Fault>)
    ensures Harmless(faults) ==> forall round: nat :: FaultAt(faults, round) == Fault(Complete, true)
  {
  }

  method TakeFirst(ids: set<Id>, n: nat) returns (r: set<Id>)
    ensures r == FirstIds(ids, n)
  {
    var left, k := ids, n;
    r := {};
    while k > 0 && left != {}
      invariant FirstIds(ids, n) == r + FirstIds(left, k)
      decreases k
    {
      var m := LeastOf(left);
      assert FirstIds(left, k) == {m} + FirstIds(left - {m}, k - 1);
      left, r, k := left - {m}, r + {m}, k - 1;
    }
  }

  class Archiver {
    var table: Rows
    var files: Files

    constructor (t: Rows, f: Files)
      ensures table == t && files == f
    {
      table, files := t, f;
    }

    /** `WHERE created_at < cutoff ORDER BY id LIMIT size` */
    method ArchiveBatch(cutoff: int, size: nat) returns (rows: Rows)
      ensures rows == Batch(table, cutoff, size)
    {
      var chosen := TakeFirst(OldIds(table, cutoff), size);
      rows := map i | i in chosen :: table[i];
    }

    /** The delete is rolled back unless it hit every id it was given. */
    method DeleteArchived(ids: set<Id>, cutoff: int, committed: bool) returns (r: Result)
      modifies this`table
      ensures ids == {} ==> r == Ok(0) && table == old(table)
      ensures r.Ok? && ids != {} ==> committed && Victims(old(table), ids, cutoff) == ids
                                     && table == old(table) - ids && r.total == |ids|
      ensures r.Err? ==> table == old(table) && (!committed || Victims(table, ids, cutoff) != ids)
    {
      if ids == {} {
        return Ok(0);
      }
      var saved := table;
      var victims := Victims(table, ids, cutoff);
      WholeBatch(table, ids, cutoff);
      table := table - victims;
      if !committed || |victims| != |ids| {
        table := saved;
        return Err;
      }
      return Ok(|victims|);
    }

    /** The file is named after the first and last row, and takes the place of one of that name. */
    method WriteArchive(rows: Rows, cutoff: int)
      requires rows != map[]
      modifies this`files
      ensures files == old(files)[NameOf(rows, cutoff) := rows]
    {
      assert rows.Keys != {};
      var first := LeastOf(rows.Keys);
      var last := GreatestOf(rows.Keys);
      files := files[Name(first, last, cutoff) := rows];
    }

    /** One turn of the loop, against the steps it takes. `others` are the files from before this run. */
    method Round(cutoff: int, size: nat, fault: Fault, ghost e: State, ghost others: Files)
      returns (more: bool, r: Result)
      requires Inv(e) && e.phase == Idle && size > 0
      requires Mirrors(e, table, files, others) && e.cutoff == cutoff && e.size == size
      modifies this
      ensures !more ==> Step(e, Fetch).phase == Finished && table == old(table) && files == old(files)
      ensures more ==> var t := AfterRound(e, fault);
        && Mirrors(t, table, files, others)
        && (if r.Ok? then t.phase == Idle && t.archived == e.archived + r.total else t.phase == Aborted)
        && (fault == Fault(Complete, true) ==> r.Ok?)
        && (r.Ok? ==> |OldIds(table, cutoff)| < |OldIds(old(table), cutoff)|)
    {
      hide Inv, NameOf, Batch, Victims, AfterRound, Step, OldIds;
      var rows := ArchiveBatch(cutoff, size);
      if rows == map[] {
        FetchFinishes(e);
        return false, Ok(0);
      }
      RoundEffect(e, fault);
      MergeUpdate(others, e.files, NameOf(rows, cutoff), rows);
      if fault.write == NoFile {
        return true, Err;
      }
      WriteArchive(rows, cutoff);
      if fault.write == FileOnly {
        return true, Err;
      }
      r := DeleteArchived(rows.Keys, cutoff, fault.committed);
      return true, r;
    }

    /**
      The program: it is a run of the steps above, so all they guarantee holds of it. It ends for
      every table and every fault; faults after the last given one do not happen.
     */
    method ArchiveAll(cutoff: int, size: nat, faults: seq<Fault>) returns (r: Result, ghost trace: seq<Op>)
      requires size > 0
      modifies this
      ensures Undisturbed(cutoff, trace)
      ensures var e := After(Start(cutoff, size, old(table)), trace);
        && Mirrors(e, table, files, old(files))
        && if r.Ok? then r.total == e.archived && e.phase == Idle && Step(e, Fetch).phase == Finished
           else e.phase == Aborted
      ensures Harmless(faults) ==> r.Ok?
      ensures r.Ok? ==> r.total == |OldIds(old(table), cutoff)|
    {
      ghost var start := Start(cutoff, size, table);
      ghost var others := files;
      StartOk(cutoff, size, table);
      trace := [];
      var archived, round := 0, 0;
      assert others + map[] == others;
      assert After(start, []) == start;
      HarmlessAt(faults);
      hide Inv, Step, After, AfterRound, Undisturbed, OldIds, RoundOps, Harmless, FaultAt, Mirrors;
      while true
        invariant Undisturbed(cutoff, trace)
        invariant var e := After(start, trace);
          && Inv(e) && e.phase == Idle && e.archived == archived && e.cutoff == cutoff && e.size == size
          && Mirrors(e, table, files, others)
        decreases |OldIds(table, cutoff)|
      {
        var fault := FaultAt(faults, round);
        ghost var e := After(start, trace);
        var more, done := Round(cutoff, size, fault, e, others);
        if !more {
          UndisturbedTotal(cutoff, size, old(table), trace);
          return Ok(archived), trace;
        }
        RoundIsRun(start, trace, fault);
        trace := trace + RoundOps(fault);
        if done.Err? {
          return Err, trace;
        }
        archived := archived + done.total;
        round := round + 1;
      }
    }
  }

  function RoundOps(fault: Fault): seq<Op>
  {
    [Fetch, Write(fault.write)] + if fault.write == Complete then [Delete(fault.committed)] else []
  }

  ghost function AfterRound(e: State, fault: Fault): State
  {
    var written := Step(Step(e, Fetch), Write(fault.write));
    if fault.write == Complete then Step(written, Delete(fault.committed)) else written
  }

  lemma AfterOne(s: State, ops: seq<Op>, op: Op)
    requires Inv(After(s, ops))
    ensures After(s, ops + [op]) == Step(After(s, ops), op) && Inv(After(s, ops + [op]))
  {
    hide Step, Inv;
    assert (ops + [op])[..|ops|] == ops;
    StepKeepsInv(After(s, ops), op);
  }

  lemma RoundIsRun(start: State, trace: seq<Op>, fault: Fault)
    requires Undisturbed(start.cutoff, trace) && Inv(After(start, trace))
    ensures After(start, trace + RoundOps(fault)) == AfterRound(After(start, trace), fault)
    ensures Inv(After(start, trace + RoundOps(fault)))
    ensures Undisturbed(start.cutoff, trace + RoundOps(fault))
    ensures After(start, trace + RoundOps(fault)).cutoff == start.cutoff
    ensures After(start, trace + RoundOps(fault)).size == start.size
  {
    hide Step, Inv, After;
    LedgerGrows(start, trace + RoundOps(fault));
    var t1 := trace + [Fetch];
    var t2 := t1 + [Write(fault.write)];
    AfterOne(start, trace, Fetch);
    AfterOne(start, t1, Write(fault.write));
    if fault.write == Complete {
      AfterOne(start, t2, Delete(fault.committed));
      assert t2 + [Delete(fault.committed)] == trace + RoundOps(fault);
    } else {
      assert t2 == trace + RoundOps(fault);
    }
  }

  lemma FetchFinishes(e: State)
    requires e.phase == Idle && Batch(e.table, e.cutoff, e.size) == map[]
    ensures Step(e, Fetch).phase == Finished
  {
  }

  lemma MergeUpdate(a: Files, b: Files, n: Name, rows: Rows)
    ensures (a + b)[n := rows] == a + b[n := rows]
  {
  }

  /** What the steps of a round come to when there is a batch and nobody interferes. */
  lemma RoundEffect(e: State, fault: Fault)
    requires e.phase == Idle && Batch(e.table, e.cutoff, e.size) != map[]
    ensures var b, t := Batch(e.table, e.cutoff, e.size), AfterRound(e, fault);
      && Victims(e.table, b.Keys, e.cutoff) == b.Keys
      && t.files == (if fault.write == NoFile then e.files else e.files[NameOf(b, e.cutoff) := b])
      && t.table == (if fault == Fault(Complete, true) then e.table - b.Keys else e.table)
      && t.phase == (if fault == Fault(Complete, true) then Idle else Aborted)
      && t.archived == e.archived + (if fault == Fault(Complete, true) then |b.Keys| else 0)
      && |OldIds(e.table - b.Keys, e.cutoff)| < |OldIds(e.table, e.cutoff)|
  {
    var b := Batch(e.table, e.cutoff, e.size);
    BatchIsOld(e.table, e.cutoff, e.size);
    hide NameOf, Batch;
    assert Victims(e.table, b.Keys, e.cutoff) == b.Keys;
    OldRowsShrink(e.table, b, e.cutoff);
  }

  lemma OldRowsShrink(table: Rows, b: Rows, cutoff: int)
    requires b != map[] && forall i :: i in b ==> i in table && table[i].createdAt < cutoff
    ensures |OldIds(table - b.Keys, cutoff)| < |OldIds(table, cutoff)|
  {
    var i :| i in b;
    assert OldIds(table, cutoff) == OldIds(table - b.Keys, cutoff) + b.Keys;
    assert OldIds(table - b.Keys, cutoff) !! b.Keys;
    assert |b.Keys| > 0;
  }
}
