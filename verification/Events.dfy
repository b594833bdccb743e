/**
  The task event log and its readers. Cursors of a task count its events without a gap, so
  pages chain into the whole log, and a stream resumed at any cursor goes on with the next.
 */
module Events {
  import opened Types

  datatype Event = Event(task: Id, cursor: nat, key: string, kind: string)

  /** The rows of all tasks, in the order they were inserted. */
  type Log = seq<Event>

  function OfTask(log: Log, t: Id): seq<Event>
  {
    if log == [] then []
    else
      var last := log[|log| - 1];
      OfTask(log[..|log| - 1], t) + if last.task == t then [last] else []
  }

  ghost predicate Numbered(rows: seq<Event>)
  {
    forall k :: 0 <= k < |rows| ==> rows[k].cursor == k + 1
  }

  ghost predicate KeysOnce(rows: seq<Event>)
  {
    forall i, j :: 0 <= i < j < |rows| ==> rows[i].key != rows[j].key
  }

  /** Each task's cursors are 1, 2, ..., n and its keys are all different. */
  ghost predicate Inv(log: Log)
  {
    forall t :: Numbered(OfTask(log, t)) && KeysOnce(OfTask(log, t))
  }

  lemma {:induction false} OfTaskMembers(log: Log, t: Id, e: Event)
    ensures e in OfTask(log, t) <==> e in log && e.task == t
  {
    if log != [] {
      var n := |log| - 1;
      OfTaskMembers(log[..n], t, e);
      assert log == log[..n] + [log[n]];
    }
  }

  // ------------------------------------------------------------------ append

  /** `append_task_event`: the row that already has the key wins. */
  ghost function Appended(log: Log, t: Id, key: string, kind: string): Log
  {
    if exists e :: e in OfTask(log, t) && e.key == key then log
    else log + [Event(t, |OfTask(log, t)| + 1, key, kind)]
  }

  lemma AppendedRows(log: Log, e: Event, u: Id)
    ensures OfTask(log + [e], u) == OfTask(log, u) + if e.task == u then [e] else []
  {
    assert (log + [e])[..|log|] == log;
  }

  lemma NoRows(log: Log, t: Id)
    ensures OfTask(log[..0], t) == []
  {
  }

  lemma AppendKeepsInv(log: Log, t: Id, key: string, kind: string)
    requires Inv(log)
    ensures Inv(Appended(log, t, key, kind))
    ensures forall u :: OfTask(log, u) <= OfTask(Appended(log, t, key, kind), u)
  {
    if exists x :: x in OfTask(log, t) && x.key == key {
    } else {
      var e := Event(t, |OfTask(log, t)| + 1, key, kind);
      assert forall i :: 0 <= i < |OfTask(log, t)| ==> OfTask(log, t)[i] in OfTask(log, t);
      forall u
        ensures Numbered(OfTask(log + [e], u)) && KeysOnce(OfTask(log + [e], u))
        ensures OfTask(log, u) <= OfTask(log + [e], u)
      {
        AppendedRows(log, e, u);
        assert Numbered(OfTask(log, u)) && KeysOnce(OfTask(log, u));
        hide OfTask;
      }
    }
  }

  datatype Append = Append(task: Id, key: string, kind: string)

  ghost function After(log: Log, appends: seq<Append>): Log
  {
    if appends == [] then log
    else
      var a := appends[|appends| - 1];
      Appended(After(log, appends[..|appends| - 1]), a.task, a.key, a.kind)
  }

  /** Whatever is appended, cursors stay gap-free and each task's log only grows at its end. */
  lemma {:induction false} RunKeepsInv(log: Log, appends: seq<Append>)
    requires Inv(log)
    ensures Inv(After(log, appends))
    ensures forall u :: OfTask(log, u) <= OfTask(After(log, appends), u)
  {
    hide Inv, OfTask, Appended;
    if appends != [] {
      var n := |appends| - 1;
      RunKeepsInv(log, appends[..n]);
      var a := appends[n];
      AppendKeepsInv(After(log, appends[..n]), a.task, a.key, a.kind);
    }
  }

  /** An append repeated after any others changes nothing, and its key still names the first row. */
  lemma ReplayReturnsOriginal(log: Log, a: Append, appends: seq<Append>, kind: string)
    requires Inv(log)
    ensures var first := Appended(log, a.task, a.key, a.kind);
      var later := After(first, appends);
      && Appended(later, a.task, a.key, kind) == later
      && exists k: nat :: k < |OfTask(first, a.task)| && k < |OfTask(later, a.task)|
           && OfTask(first, a.task)[k].key == a.key && OfTask(later, a.task)[k] == OfTask(first, a.task)[k]
  {
    hide OfTask, Inv, After, Appended;
    var first := Appended(log, a.task, a.key, a.kind);
    var later := After(first, appends);
    AppendKeepsInv(log, a.task, a.key, a.kind);
    RunKeepsInv(first, appends);
    var k := AppendedHasKey(log, a);
    assert OfTask(later, a.task)[k] == OfTask(first, a.task)[k];
    KeyIsTaken(later, a.task, a.key, kind, k);
  }

  lemma AppendedHasKey(log: Log, a: Append) returns (k: nat)
    ensures var rows := OfTask(Appended(log, a.task, a.key, a.kind), a.task); k < |rows| && rows[k].key == a.key
  {
    AppendedRows(log, Event(a.task, |OfTask(log, a.task)| + 1, a.key, a.kind), a.task);
    hide OfTask;
    var rows := OfTask(Appended(log, a.task, a.key, a.kind), a.task);
    if e :| e in OfTask(log, a.task) && e.key == a.key {
      k :| k < |rows| && rows[k] == e;
    } else {
      k := |rows| - 1;
    }
  }

  lemma KeyIsTaken(log: Log, t: Id, key: string, kind: string, k: nat)
    requires k < |OfTask(log, t)| && OfTask(log, t)[k].key == key
    ensures Appended(log, t, key, kind) == log
  {
    hide OfTask;
    assert OfTask(log, t)[k] in OfTask(log, t);
  }

  class EventLog {
    var log: Log

    constructor ()
      ensures log == [] && Inv(log)
    {
      log := [];
    }

    /** Either way a row with the key comes back. */
    method AppendTaskEvent(t: Id, key: string, kind: string) returns (row: Event)
      requires Inv(log)
      modifies this
      ensures Inv(log)
      ensures log == Appended(old(log), t, key, kind)
      ensures row in OfTask(log, t) && row.key == key
    {
      hide OfTask, Inv;
      AppendKeepsInv(log, t, key, kind);
      var found := FindKey(log, t, key);
      if found.Some? {
        row := found.value;
      } else {
        var highest := MaxCursor(log, t);
        row := Event(t, highest + 1, key, kind);
        AppendedRows(log, row, t);
        log := log + [row];
      }
    }
  }

  /** The row that holds the key among those of the task. */
  method FindKey(log: Log, t: Id, key: string) returns (found: Option<Event>)
    ensures found.None? ==> forall e :: e in OfTask(log, t) ==> e.key != key
    ensures found.Some? ==> found.value in OfTask(log, t) && found.value.key == key
  {
    NoRows(log, t);
    hide OfTask;
    for i := 0 to |log|
      invariant forall e :: e in OfTask(log[..i], t) ==> e.key != key
    {
      var e := log[i];
      assert log[..i + 1] == log[..i] + [e];
      AppendedRows(log[..i], e, t);
      if e.task == t && e.key == key {
        OfTaskMembers(log, t, e);
        return Some(e);
      }
    }
    assert log[..|log|] == log;
    return None;
  }

  /** `max(cursor)` of the task, 0 if it has no events: the number of its events. */
  method MaxCursor(log: Log, t: Id) returns (highest: nat)
    requires Inv(log)
    ensures highest == |OfTask(log, t)|
  {
    LogNumbered(log, t);
    NoRows(log, t);
    hide OfTask, Inv;
    highest := 0;
    for i := 0 to |log|
      invariant forall e :: e in OfTask(log[..i], t) ==> e.cursor <= highest
      invariant highest == 0 || exists e :: e in OfTask(log[..i], t) && e.cursor == highest
    {
      var e := log[i];
      assert log[..i + 1] == log[..i] + [e];
      AppendedRows(log[..i], e, t);
      if e.task == t && e.cursor > highest {
        highest := e.cursor;
        assert e in OfTask(log[..i + 1], t);
      }
    }
    assert log[..|log|] == log;
    HighestIsCount(OfTask(log, t), highest);
  }

  lemma HighestIsCount(rows: seq<Event>, highest: nat)
    requires Numbered(rows)
    requires forall e :: e in rows ==> e.cursor <= highest
    requires highest == 0 || exists e :: e in rows && e.cursor == highest
    ensures highest == |rows|
  {
    if rows != [] {
      assert rows[|rows| - 1] in rows;
    }
    if e :| e in rows && e.cursor == highest {
      var k :| 0 <= k < |rows| && rows[k] == e;
    }
  }

  // ------------------------------------------------------------------- pages

  /** At most `n` events after cursor `c`. */
  function Slice(rows: seq<Event>, c: nat, n: nat): seq<Event>
  {
    if c >= |rows| then [] else if c + n <= |rows| then rows[c..c + n] else rows[c..]
  }

  /** The row of task `t` with the least cursor above `c`. */
  method FirstAfter(log: Log, t: Id, c: nat) returns (row: Option<Event>)
    requires Inv(log)
    ensures row == if c < |OfTask(log, t)| then Some(OfTask(log, t)[c]) else None
  {
    LogNumbered(log, t);
    NoRows(log, t);
    hide OfTask, Inv;
    row := None;
    for i := 0 to |log|
      invariant row.None? ==> forall e :: e in OfTask(log[..i], t) ==> e.cursor <= c
      invariant row.Some? ==> row.value in OfTask(log[..i], t) && row.value.cursor > c
      invariant row.Some? ==> forall e :: e in OfTask(log[..i], t) && e.cursor > c ==> row.value.cursor <= e.cursor
    {
      var e := log[i];
      assert log[..i + 1] == log[..i] + [e];
      AppendedRows(log[..i], e, t);
      if e.task == t && e.cursor > c && (row.None? || e.cursor < row.value.cursor) {
        row := Some(e);
      }
    }
    assert log[..|log|] == log;
    var rows := OfTask(log, t);
    if c < |rows| {
      assert rows[c] in rows && rows[c].cursor == c + 1;
      var k :| 0 <= k < |rows| && rows[k] == row.value;
    } else {
      assert forall e :: e in rows ==> exists k :: 0 <= k < |rows| && rows[k] == e;
    }
  }

  /** `list_task_events` of the repository: `cursor > after ORDER BY cursor LIMIT limit`. */
  method ListRows(log: Log, t: Id, after: nat, limit: nat) returns (rows: seq<Event>)
    requires Inv(log)
    ensures rows == Slice(OfTask(log, t), after, limit)
  {
    rows := [];
    var cursor, more := after, true;
    while |rows| < limit && more
      invariant |rows| <= limit && cursor == after + |rows|
      invariant rows == Slice(OfTask(log, t), after, |rows|)
      invariant !more ==> cursor >= |OfTask(log, t)|
      decreases more, limit - |rows|
    {
      var next := FirstAfter(log, t, cursor);
      if next.None? {
        more := false;
      } else {
        rows := rows + [next.value];
        cursor := next.value.cursor;
      }
    }
  }

  /** The service's page: one row beyond the limit tells whether there is more. */
  method ListTaskEvents(log: Log, t: Id, after: nat, limit: int) returns (items: seq<Event>, next: Option<nat>)
    requires Inv(log)
    ensures items == Slice(OfTask(log, t), after, PageSize(limit))
    ensures next == if after + PageSize(limit) < |OfTask(log, t)| then Some(after + PageSize(limit)) else None
  {
    var size := PageSize(limit);
    var rows := ListRows(log, t, after, size + 1);
    next := if |rows| > size then Some(rows[size - 1].cursor) else None;
    items := if |rows| > size then rows[..size] else rows;
  }

  function PageSize(limit: int): (n: nat)
    ensures 1 <= n <= 200
    ensures 1 <= limit <= 200 ==> n == limit
    ensures limit < 1 ==> n == 1
    ensures limit > 200 ==> n == 200
  {
    if limit < 1 then 1 else if limit > 200 then 200 else limit
  }

  /** Following `next_cursor` from page to page reads exactly the events after the first cursor. */
  method ReadAll(log: Log, t: Id, after: nat, limit: int) returns (all: seq<Event>)
    requires Inv(log)
    ensures all == if after <= |OfTask(log, t)| then OfTask(log, t)[after..] else []
  {
    var items, next := ListTaskEvents(log, t, after, limit);
    all := items;
    while next.Some?
      invariant next.Some? ==> after < next.value < |OfTask(log, t)| && all == OfTask(log, t)[after..next.value]
      invariant next.None? ==> all == if after <= |OfTask(log, t)| then OfTask(log, t)[after..] else []
      decreases if next.Some? then |OfTask(log, t)| - next.value else 0
    {
      items, next := ListTaskEvents(log, t, next.value, limit);
      all := all + items;
    }
  }

  // ------------------------------------------------------------------ stream

  /** What a poll of the stream meets: the log as it is by then, or an error. */
  datatype Poll = Seen(log: Log) | Failed

  ghost predicate Grows(a: Log, b: Log)
  {
    exists appends :: b == After(a, appends)
  }

  lemma GrowsKeeps(a: Log, b: Log, t: Id)
    requires Inv(a) && Grows(a, b)
    ensures Inv(b) && OfTask(a, t) <= OfTask(b, t)
  {
    var appends :| b == After(a, appends);
    RunKeepsInv(a, appends);
  }

  /** The log as poll `i` finds the one before it to have left it. */
  function Before(start: Log, polls: seq<Poll>, i: nat): Log
    requires i < |polls|
  {
    if i > 0 && polls[i - 1].Seen? then polls[i - 1].log else start
  }

  /** Between polls there are only appends, any number of them. */
  ghost predicate Growing(start: Log, polls: seq<Poll>)
  {
    forall i: nat :: i < |polls| && polls[i].Seen? ==> Grows(Before(start, polls, i), polls[i].log)
  }

  /** Where the stream starts: the query's cursor, or the reconnect header's, never below zero. */
  function InitialCursor(query: Option<int>, header: Option<int>): (c: nat)
    ensures query.Some? && query.value >= 0 ==> c == query.value
    ensures query.None? && header.Some? && header.value >= 0 ==> c == header.value
    ensures (query.Some? && query.value < 0) || (query.None? && (header.Some? ==> header.value < 0)) ==> c == 0
  {
    var chosen := if query.Some? then query.value else if header.Some? then header.value else 0;
    if chosen < 0 then 0 else chosen
  }

  /** How many of `polls` succeed before the first error. */
  function Successes(polls: seq<Poll>): (n: nat)
    ensures n <= |polls|
    ensures forall i :: 0 <= i < n ==> polls[i].Seen?
    ensures n < |polls| ==> polls[n].Failed?
  {
    if polls == [] || polls[0].Failed? then 0 else 1 + Successes(polls[1..])
  }

  /** The cursor after a poll that finds `n` events in the log. */
  function Advance(c: nat, n: nat): (d: nat)
  {
    if n <= c then c else if n <= c + 100 then n else c + 100
  }

  function CursorAfter(c: nat, polls: seq<Poll>, t: Id, k: nat): nat
    requires k <= Successes(polls)
  {
    if k == 0 then c else Advance(CursorAfter(c, polls, t, k - 1), |OfTask(polls[k - 1].log, t)|)
  }

  /**
    `stream_task_events` over any number of polls. A client that reconnects names the last event
    it got, and goes on with the next. Whatever was appended in between, the events
    sent are those numbered `initial + 1`, `initial + 2`, ... in order, none skipped or repeated;
    each poll sends up to a hundred of those waiting, and the first error ends the stream.
   */
  method Stream(start: Log, polls: seq<Poll>, t: Id, query: Option<int>, header: Option<int>)
    returns (initial: nat, sent: seq<Event>, cursor: nat)
    requires Inv(start) && Growing(start, polls)
    ensures initial == InitialCursor(query, header)
    ensures cursor == CursorAfter(initial, polls, t, Successes(polls)) == initial + |sent|
    ensures forall k :: 0 <= k < |sent| ==> sent[k].cursor == initial + 1 + k
    ensures var n := Successes(polls);
      sent == if n == 0 then [] else Slice(OfTask(polls[n - 1].log, t), initial, |sent|)
  {
    hide OfTask, Slice, Advance, Inv, Grows;
    initial := InitialCursor(query, header);
    sent, cursor := [], initial;
    var i := 0;
    while i < |polls|
      invariant i <= Successes(polls)
      invariant cursor == CursorAfter(initial, polls, t, i) == initial + |sent|
      invariant sent == if i == 0 then [] else Slice(OfTask(polls[i - 1].log, t), initial, |sent|)
      invariant Inv(if i == 0 then start else polls[i - 1].log)
    {
      if polls[i].Failed? {
        break;
      }
      var items;
      ghost var before, rows := OfTask(Before(start, polls, i), t), OfTask(polls[i].log, t);
      GrowsKeeps(Before(start, polls, i), polls[i].log, t);
      items, cursor := SendPage(polls[i].log, t, cursor);
      SliceExtends(before, rows, initial, sent);
      sent := sent + items;
      i := i + 1;
    }
    if i > 0 {
      LogNumbered(polls[i - 1].log, t);
      SliceNumbers(OfTask(polls[i - 1].log, t), initial, |sent|);
    }
  }

  lemma LogNumbered(log: Log, t: Id)
    requires Inv(log)
    ensures Numbered(OfTask(log, t))
  {
  }

  /** One successful poll: the cursor moves to each event as it is sent. */
  method SendPage(log: Log, t: Id, cursor: nat) returns (sent: seq<Event>, next: nat)
    requires Inv(log)
    ensures sent == Slice(OfTask(log, t), cursor, 100)
    ensures next == Advance(cursor, |OfTask(log, t)|) == cursor + |sent|
  {
    hide OfTask;
    var items, _ := ListTaskEvents(log, t, cursor, 100);
    assert Numbered(OfTask(log, t));
    sent, next := [], cursor;
    for j := 0 to |items|
      invariant next == cursor + j && sent == items[..j]
    {
      next := items[j].cursor;
      sent := sent + [items[j]];
    }
  }

  /** What was sent stays a slice of the longer log, and the next page joins on to it. */
  lemma SliceExtends(shorter: seq<Event>, rows: seq<Event>, c: nat, sent: seq<Event>)
    requires shorter <= rows && (sent == [] || sent == Slice(shorter, c, |sent|))
    ensures var more := Slice(rows, c + |sent|, 100); sent + more == Slice(rows, c, |sent| + |more|)
  {
  }

  lemma SliceNumbers(rows: seq<Event>, c: nat, n: nat)
    requires Numbered(rows)
    ensures forall k :: 0 <= k < |Slice(rows, c, n)| ==> Slice(rows, c, n)[k].cursor == c + 1 + k
  {
  }

  /** While the log stands still, enough polls bring the stream to its end. */
  lemma {:induction false} StreamCatchesUp(c: nat, polls: seq<Poll>, t: Id, n: nat, k: nat)
    requires k <= Successes(polls) && c <= n
    requires forall i :: 0 <= i < k ==> |OfTask(polls[i].log, t)| == n
    ensures CursorAfter(c, polls, t, k) == if n <= c + 100 * k then n else c + 100 * k
  {
    hide OfTask;
    if k > 0 {
      StreamCatchesUp(c, polls, t, n, k - 1);
    }
  }
}
