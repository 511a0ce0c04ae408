/**
The Host's log store as its readers see it: an append-only log whose oldest
entries are pruned, read one page at a time.
*/
module LogStore {
  import opened Options

  datatype Source = HostDaemon | Storage | CodexAdapter

  datatype Entry = Entry(
    cursor: nat,
    recordedAt: int,
    source: Source,
    severity: nat,
    session: Option<string>,
    binding: Option<string>)

  /** Which entries a reader asks for. */
  datatype Filter = Filter(
    session: Option<string>,
    since: Option<int>,
    sources: set<Source>,
    minimumSeverity: nat,
    bindings: Option<set<string>>)

  predicate Selects(f: Filter, e: Entry) {
    && (f.session.Some? ==> e.session == f.session)
    && (f.since.Some? ==> e.recordedAt >= f.since.value)
    && e.source in f.sources
    && e.severity >= f.minimumSeverity
    && (f.bindings.Some? && e.binding.Some? ==> e.binding.value in f.bindings.value)
  }

  /** Everything ever appended; only entries above `expiredThrough` are still stored. */
  datatype Store = Store(log: seq<Entry>, expiredThrough: nat)

  ghost predicate Ordered(log: seq<Entry>) {
    (forall i :: 0 <= i < |log| ==> log[i].cursor > 0) &&
    (forall i, j :: 0 <= i < j < |log| ==> log[i].cursor < log[j].cursor)
  }

  function LastCursor(log: seq<Entry>): nat {
    if log == [] then 0 else log[|log| - 1].cursor
  }

  ghost predicate Valid(s: Store) {
    Ordered(s.log) && s.expiredThrough <= LastCursor(s.log)
  }

  /** The rows above a cursor. */
  function Above(log: seq<Entry>, cursor: nat): seq<Entry> {
    if log == [] then [] else
    (if log[0].cursor > cursor then [log[0]] else []) + Above(log[1..], cursor)
  }

  function Stored(s: Store): seq<Entry> {
    Above(s.log, s.expiredThrough)
  }

  function HighWater(s: Store): nat {
    if Stored(s) == [] then s.expiredThrough else LastCursor(Stored(s))
  }

  predicate Within(cursor: nat, after: nat, through: Option<nat>) {
    cursor > after && (through.Some? ==> cursor <= through.value)
  }

  /** The rows a filter selects above `after` and, when given, at or below `through`. */
  function Matching(f: Filter, rows: seq<Entry>, after: nat, through: Option<nat>): seq<Entry> {
    if rows == [] then [] else
    (if Within(rows[0].cursor, after, through) && Selects(f, rows[0]) then [rows[0]] else [])
    + Matching(f, rows[1..], after, through)
  }

  // -------------------------------------------------------------------- pages

  datatype PageResult =
    | Page(entries: seq<Entry>, next: nat, truncated: bool)
    | CursorExpired(earliest: Option<nat>, resume: nat)
    | CursorAhead

  function ForwardPage(s: Store, f: Filter, cursor: Option<nat>, limit: nat): PageResult
    requires limit >= 1
  {
    if cursor.Some? && cursor.value < s.expiredThrough then
      CursorExpired(if Stored(s) == [] then None else Some(Stored(s)[0].cursor), s.expiredThrough)
    else if cursor.Some? && cursor.value > HighWater(s) then CursorAhead
    else
      var found := Matching(f, Stored(s), if cursor.Some? then cursor.value else 0, None);
      if |found| > limit then Page(found[..limit], found[limit - 1].cursor, true)
      else Page(found, HighWater(s), false)
  }

  function Reversed<T>(s: seq<T>): seq<T> {
    seq(|s|, i requires 0 <= i < |s| => s[|s| - 1 - i])
  }

  /** The newest rows are fetched first and put back in order. */
  function TailPage(s: Store, f: Filter, limit: nat): PageResult
    requires limit >= 1
  {
    var found := Reversed(Matching(f, Stored(s), 0, None));
    if |found| > limit then Page(Reversed(found[..limit]), HighWater(s), true)
    else Page(Reversed(found), HighWater(s), false)
  }

  // --------------------------------------------------------------- how it grows

  /** A later state of the same store: only appended to and pruned. */
  ghost predicate Evolves(s: Store, t: Store) {
    Valid(s) && Valid(t) && s.log <= t.log && s.expiredThrough <= t.expiredThrough
  }

  function Append(s: Store, e: Entry): Store {
    s.(log := s.log + [e])
  }

  function FirstRetained(rows: seq<Entry>, cutoff: int): Option<nat> {
    if rows == [] then None
    else if rows[0].recordedAt >= cutoff then Some(rows[0].cursor)
    else FirstRetained(rows[1..], cutoff)
  }

  function Prune(s: Store, cutoff: int): Store {
    var first := FirstRetained(Stored(s), cutoff);
    if first.Some? then
      s.(expiredThrough := if first.value > s.expiredThrough then first.value - 1 else s.expiredThrough)
    else if Stored(s) == [] then s
    else s.(expiredThrough := LastCursor(Stored(s)))
  }

  // ------------------------------------------------------------------ ordering

  lemma {:induction false} Rest(log: seq<Entry>)
    requires log != [] && Ordered(log)
    ensures log == [log[0]] + log[1..] && Ordered(log[1..])
    ensures forall e :: e in log[1..] ==> e.cursor > log[0].cursor
    ensures LastCursor(log) == if log[1..] == [] then log[0].cursor else LastCursor(log[1..])
  {
    assert forall i :: 0 <= i < |log| - 1 ==> log[1..][i] == log[i + 1];
  }

  lemma {:induction false} AboveMembers(log: seq<Entry>, cursor: nat)
    ensures forall e :: e in Above(log, cursor) <==> e in log && e.cursor > cursor
  {
    if log != [] {
      AboveMembers(log[1..], cursor);
      assert log == [log[0]] + log[1..];
    }
  }

  lemma {:induction false} AboveRows(log: seq<Entry>, cursor: nat)
    requires Ordered(log)
    ensures Ordered(Above(log, cursor))
    ensures forall e :: e in Above(log, cursor) <==> e in log && e.cursor > cursor
    ensures LastCursor(log) > cursor ==> Above(log, cursor) != [] && LastCursor(Above(log, cursor)) == LastCursor(log)
    ensures LastCursor(log) <= cursor ==> Above(log, cursor) == []
  {
    AboveMembers(log, cursor);
    AboveOrdered(log, cursor);
    AboveEnds(log, cursor);
  }

  lemma {:induction false} AboveOrdered(log: seq<Entry>, cursor: nat)
    requires Ordered(log)
    ensures Ordered(Above(log, cursor))
  {
    if log != [] {
      Rest(log);
      AboveOrdered(log[1..], cursor);
      AboveMembers(log[1..], cursor);
    }
  }

  lemma {:induction false} AboveEnds(log: seq<Entry>, cursor: nat)
    requires Ordered(log)
    ensures LastCursor(log) > cursor ==> Above(log, cursor) != [] && LastCursor(Above(log, cursor)) == LastCursor(log)
    ensures LastCursor(log) <= cursor ==> Above(log, cursor) == []
  {
    if log != [] {
      Rest(log);
      AboveEnds(log[1..], cursor);
      LastIsHighest(log);
      assert log[0] in log;
      if log[0].cursor > cursor && log[1..] == [] { assert Above(log, cursor) == [log[0]]; }
    }
  }

  /** The high-water mark never moves back, even when every row has been pruned. */
  lemma {:induction false} HighWaterIsLast(s: Store)
    requires Valid(s)
    ensures HighWater(s) == LastCursor(s.log)
  {
    AboveRows(s.log, s.expiredThrough);
  }

  lemma {:induction false} AppendEvolves(s: Store, e: Entry)
    requires Valid(s) && e.cursor > LastCursor(s.log)
    ensures Evolves(s, Append(s, e))
  {
  }

  ghost predicate RecentRow(rows: seq<Entry>, cutoff: int, e: Entry) {
    e in rows && e.recordedAt >= cutoff
  }

  /** Some row at or before this one is recent enough. */
  ghost predicate Kept(rows: seq<Entry>, cutoff: int, e: Entry) {
    exists w :: RecentRow(rows, cutoff, w) && w.cursor <= e.cursor
  }

  lemma {:induction false} NoneRetained(rows: seq<Entry>, cutoff: int)
    requires FirstRetained(rows, cutoff).None?
    ensures forall e :: !RecentRow(rows, cutoff, e)
  {
    if rows != [] {
      NoneRetained(rows[1..], cutoff);
      assert rows == [rows[0]] + rows[1..];
      assert forall e :: RecentRow(rows, cutoff, e) ==> RecentRow(rows[1..], cutoff, e);
    }
  }

  lemma {:induction false} FirstRetainedFinds(rows: seq<Entry>, cutoff: int) returns (w: Entry)
    requires Ordered(rows) && FirstRetained(rows, cutoff).Some?
    ensures RecentRow(rows, cutoff, w) && w.cursor == FirstRetained(rows, cutoff).value
    ensures forall e :: RecentRow(rows, cutoff, e) ==> e.cursor >= w.cursor
  {
    if rows[0].recordedAt >= cutoff {
      w := rows[0];
    } else {
      w := FirstRetainedFinds(rows[1..], cutoff);
      assert rows == [rows[0]] + rows[1..];
      assert forall e :: RecentRow(rows, cutoff, e) ==> RecentRow(rows[1..], cutoff, e);
    }
  }

  lemma {:induction false} LastIsHighest(rows: seq<Entry>)
    requires Ordered(rows)
    ensures forall e :: e in rows ==> e.cursor <= LastCursor(rows)
  {
  }

  lemma {:induction false} CutSeparates(s: Store, cutoff: int)
    requires Valid(s)
    ensures var t := Prune(s, cutoff); t.log == s.log && s.expiredThrough <= t.expiredThrough <= LastCursor(s.log)
    ensures forall e :: e in Stored(s) ==>
      (e.cursor > Prune(s, cutoff).expiredThrough <==> Kept(Stored(s), cutoff, e))
  {
    var rows := Stored(s);
    AboveRows(s.log, s.expiredThrough);
    if FirstRetained(rows, cutoff).None? {
      NoneRetained(rows, cutoff);
      LastIsHighest(rows);
    } else {
      var w := FirstRetainedFinds(rows, cutoff);
      LastIsHighest(s.log);
      assert w in s.log;
    }
  }

  /** Pruning is a step of the store and drops exactly the rows older than every
      row recorded at or after the cutoff. */
  lemma {:induction false} PruneDropsOldPrefix(s: Store, cutoff: int)
    requires Valid(s)
    ensures Evolves(s, Prune(s, cutoff))
    ensures forall e :: e in Stored(Prune(s, cutoff)) <==> e in Stored(s) && Kept(Stored(s), cutoff, e)
  {
    CutSeparates(s, cutoff);
    AboveRows(s.log, s.expiredThrough);
    AboveRows(s.log, Prune(s, cutoff).expiredThrough);
  }
}
