/**
Finite forward reads: one high-water mark is captured first, then pages are
fetched until it is reached, while the log may grow and be pruned.
*/
module LogRead {
  import opened Options
  import opened LogStore
  import opened LogPages

  datatype ErrorCode =
    | HostUnreachable | HostDaemonUnreachable | DirectDaemonUnreachable | SshBootstrapUnavailable
    | HostIdentityMismatch | IdentityChanged
    | LogCursorExpired | LogCursorAhead
    | Interrupted | ReconnectExhausted
    | OtherFailure

  /** What the transport brings back: the store at that moment, or an error. */
  datatype Reply = Serve(store: Store) | Fail(code: ErrorCode)

  datatype Fetched = Got(entries: seq<Entry>, next: nat, truncated: bool) | Failed(code: ErrorCode)

  function AsFetched(page: PageResult): Fetched {
    match page
    case Page(entries, next, truncated) => Got(entries, next, truncated)
    case CursorExpired(_, _) => Failed(LogCursorExpired)
    case CursorAhead => Failed(LogCursorAhead)
  }

  function Fetch(reply: Reply, f: Filter, cursor: Option<nat>, limit: nat): Fetched
    requires limit >= 1
  {
    match reply
    case Serve(store) => AsFetched(ForwardPage(store, f, cursor, limit))
    case Fail(code) => Failed(code)
  }

  function FetchTail(reply: Reply, f: Filter, limit: nat): Fetched
    requires limit >= 1
  {
    match reply
    case Serve(store) => AsFetched(TailPage(store, f, limit))
    case Fail(code) => Failed(code)
  }

  /** A read served by a store fails exactly for a cursor below what is pruned or
      beyond the last entry ever appended, and its code says which. */
  lemma {:induction false} RefusedReads(s: Store, f: Filter, cursor: Option<nat>, limit: nat)
    requires Valid(s) && limit >= 1
    ensures Fetch(Serve(s), f, cursor, limit) == Failed(LogCursorExpired) <==> cursor.Some? && cursor.value < s.expiredThrough
    ensures Fetch(Serve(s), f, cursor, limit) == Failed(LogCursorAhead) <==> cursor.Some? && cursor.value > LastCursor(s.log)
    ensures Fetch(Serve(s), f, cursor, limit).Failed? <==>
      cursor.Some? && (cursor.value < s.expiredThrough || cursor.value > LastCursor(s.log))
    ensures FetchTail(Serve(s), f, limit).Got?
  {
    HighWaterIsLast(s);
  }

  /** The leading entries at or below a cursor. */
  function TakeThrough(entries: seq<Entry>, cursor: nat): seq<Entry> {
    if entries == [] || entries[0].cursor > cursor then []
    else [entries[0]] + TakeThrough(entries[1..], cursor)
  }

  lemma {:induction false} TakeThroughSplit(low: seq<Entry>, high: seq<Entry>, cursor: nat)
    requires forall e :: e in low ==> e.cursor <= cursor
    requires forall e :: e in high ==> e.cursor > cursor
    ensures TakeThrough(low + high, cursor) == low
  {
    if low == [] {
      assert low + high == high;
    } else {
      assert low == [low[0]] + low[1..];
      assert (low + high)[1..] == low[1..] + high;
      TakeThroughSplit(low[1..], high, cursor);
    }
  }

  lemma {:induction false} TakeThroughMatching(f: Filter, rows: seq<Entry>, a: nat, b: nat, c: nat)
    requires Ordered(rows) && b <= c
    ensures TakeThrough(Matching(f, rows, a, Some(c)), b) == Matching(f, rows, a, Some(b))
  {
    var m := if a <= b then b else a;
    var low, high := Matching(f, rows, a, Some(b)), Matching(f, rows, m, Some(c));
    MatchingMembers(f, rows, a, Some(b));
    MatchingMembers(f, rows, m, Some(c));
    if a <= b {
      MatchingSplit(f, rows, a, b, c);
    } else {
      NothingWithin(f, rows, a, Some(b));
      assert low + high == high;
    }
    TakeThroughSplit(low, high, b);
  }

  /** One page of a snapshot read, seen from the store at the snapshot. */
  lemma {:induction false} SnapshotPage(s: Store, t: Store, f: Filter, cursor: Option<nat>, limit: nat)
    requires Evolves(s, t) && limit >= 1 && ForwardPage(t, f, cursor, limit).Page?
    ensures var page := ForwardPage(t, f, cursor, limit); var snapshot := LastCursor(s.log);
      var start := if cursor.Some? then cursor.value else t.expiredThrough;
      && start <= page.next
      && TakeThrough(page.entries, snapshot) ==
        Matching(f, s.log, start, Some(if page.next < snapshot then page.next else snapshot))
      && (!page.truncated ==> page.next >= snapshot)
      && (page.truncated ==> |page.entries| == limit && page.entries[limit - 1].cursor == page.next)
      && (page.next <= snapshot ==> TakeThrough(page.entries, snapshot) == page.entries)
  {
    var page, snapshot := ForwardPage(t, f, cursor, limit), LastCursor(s.log);
    var start := if cursor.Some? then cursor.value else t.expiredThrough;
    ForwardPageCovers(t, f, cursor, limit);
    StretchIsStable(f, s, t, start, snapshot);
    if page.next >= snapshot {
      TakeThroughMatching(f, t.log, start, snapshot, page.next);
      if page.next == snapshot { TakeThroughAll(page.entries, snapshot, f, t.log, start); }
    } else {
      StretchIsStable(f, s, t, start, page.next);
      TakeThroughBelow(f, t.log, start, page.next, snapshot);
    }
  }

  lemma {:induction false} TakeThroughAll(entries: seq<Entry>, b: nat, f: Filter, rows: seq<Entry>, a: nat)
    requires Ordered(rows) && entries == Matching(f, rows, a, Some(b))
    ensures TakeThrough(entries, b) == entries
  {
    TakeThroughMatching(f, rows, a, b, b);
  }

  lemma {:induction false} TakeThroughBelow(f: Filter, rows: seq<Entry>, a: nat, b: nat, c: nat)
    requires Ordered(rows) && b <= c
    ensures TakeThrough(Matching(f, rows, a, Some(b)), c) == Matching(f, rows, a, Some(b))
  {
    var entries := Matching(f, rows, a, Some(b));
    MatchingMembers(f, rows, a, Some(b));
    AllTaken(entries, c);
  }

  lemma {:induction false} AllTaken(entries: seq<Entry>, c: nat)
    requires forall e :: e in entries ==> e.cursor <= c
    ensures TakeThrough(entries, c) == entries
  {
    if entries != [] {
      assert entries == [entries[0]] + entries[1..];
      AllTaken(entries[1..], c);
    }
  }

  /** Later replies serve later states of the same store. */
  ghost predicate Timeline(replies: nat -> Reply) {
    forall i: nat, j: nat {:trigger replies(i), replies(j)} ::
      i < j && replies(i).Serve? && replies(j).Serve? ==> Evolves(replies(i).store, replies(j).store)
  }

  datatype Outcome = Done | Stopped(code: ErrorCode)

  /** Where a read without a cursor starts: above what is pruned when its first page is served. */
  function StartOf(begin: Option<nat>, first: Reply): nat {
    if begin.Some? then begin.value else if first.Serve? then first.store.expiredThrough else 0
  }

  /** Everything a read started at `start` delivers up to the snapshot of `s`. */
  function UpToSnapshot(f: Filter, s: Store, start: nat): seq<Entry> {
    Matching(f, s.log, start, Some(LastCursor(s.log)))
  }

  lemma {:induction false} EmptyStretch(f: Filter, log: seq<Entry>, a: nat)
    ensures Matching(f, log, a, Some(a)) == []
  {
    NothingWithin(f, log, a, Some(a));
  }

  lemma {:induction false} Joined(f: Filter, log: seq<Entry>, start: nat, at: nat, to: nat)
    requires Ordered(log) && (start == at || start <= at <= to)
    ensures Matching(f, log, start, Some(at)) + Matching(f, log, at, Some(to)) == Matching(f, log, start, Some(to))
  {
    if start == at { EmptyStretch(f, log, at); } else { MatchingSplit(f, log, start, at, to); }
  }

  /** A truncated page below the snapshot leaves fewer matches to read. */
  lemma {:induction false} PageAdvances(f: Filter, s: Store, start: nat, at: nat, next: nat)
    requires Valid(s) && start <= at <= next <= LastCursor(s.log) && Matching(f, s.log, at, Some(next)) != []
    ensures Matching(f, s.log, start, Some(at)) + Matching(f, s.log, at, Some(next)) == Matching(f, s.log, start, Some(next))
    ensures |UpToSnapshot(f, s, next)| < |UpToSnapshot(f, s, at)|
  {
    Joined(f, s.log, start, at, next);
    MatchingSplit(f, s.log, at, next, LastCursor(s.log));
  }

  predicate Reached(page: Fetched, snapshot: nat) {
    page.Got? && (!page.truncated || (page.entries != [] && page.entries[|page.entries| - 1].cursor >= snapshot))
  }

  /** One turn of the loop: either everything has been read, or one full page of it. */
  lemma {:induction false} SnapshotStep(f: Filter, s: Store, t: Store, start: nat, at: nat, cursor: Option<nat>, limit: nat)
    requires Evolves(s, t) && limit >= 1 && start <= at && at == StartOf(cursor, Serve(t))
    requires at == start || at < LastCursor(s.log)
    requires Fetch(Serve(t), f, cursor, limit).Got?
    ensures var page := Fetch(Serve(t), f, cursor, limit); var snapshot := LastCursor(s.log);
      var after := Matching(f, s.log, start, Some(at)) + TakeThrough(page.entries, snapshot);
      if Reached(page, snapshot) then after == UpToSnapshot(f, s, start)
      else
        && start <= page.next < snapshot && after == Matching(f, s.log, start, Some(page.next))
        && |TakeThrough(page.entries, snapshot)| == limit && |UpToSnapshot(f, s, page.next)| < |UpToSnapshot(f, s, at)|
  {
    var page := Fetch(Serve(t), f, cursor, limit);
    SnapshotPage(s, t, f, cursor, limit);
    if Reached(page, LastCursor(s.log)) {
      Joined(f, s.log, start, at, LastCursor(s.log));
    } else {
      PageAdvances(f, s, start, at, page.next);
    }
  }

  lemma {:induction false} PrefixOfSnapshot(f: Filter, s: Store, start: nat, at: nat)
    requires Valid(s) && start <= at && (at == start || at < LastCursor(s.log))
    ensures Matching(f, s.log, start, Some(at)) <= UpToSnapshot(f, s, start)
  {
    Joined(f, s.log, start, at, LastCursor(s.log));
  }

  /** How many entries that many full pages hold. */
  function Filled(pages: nat, limit: nat): nat {
    if pages == 0 then 0 else Filled(pages - 1, limit) + limit
  }

  lemma {:induction false} FilledIsProduct(pages: nat, limit: nat)
    ensures Filled(pages, limit) == pages * limit
  {
    if pages > 0 { FilledIsProduct(pages - 1, limit); }
  }

  /** Fetches pages from reply 1 on until the snapshot that reply 0 gave. */
  method VisitPages(f: Filter, begin: Option<nat>, limit: nat, replies: nat -> Reply, snapshot: nat)
    returns (outcome: Outcome, written: seq<Entry>, pages: nat, cursor: Option<nat>)
    requires limit >= 1 && Timeline(replies) && replies(0).Serve? && Valid(replies(0).store)
    requires snapshot == LastCursor(replies(0).store.log)
    ensures pages > 0 && (outcome.Done? ==> replies(1).Serve?)
    ensures outcome.Done? ==> written == UpToSnapshot(f, replies(0).store, StartOf(begin, replies(1)))
    ensures written <= UpToSnapshot(f, replies(0).store, StartOf(begin, replies(1)))
    ensures Filled(pages - 1, limit) <= |written|
    ensures outcome.Stopped? ==> Fetch(replies(pages), f, cursor, limit) == Failed(outcome.code)
    ensures outcome.Stopped? ==>
      written == Matching(f, replies(0).store.log, StartOf(begin, replies(1)), Some(StartOf(cursor, replies(1))))
  {
    written, pages, cursor := [], 0, begin;
    ghost var s, start := replies(0).store, StartOf(begin, replies(1));
    ghost var at := start;
    EmptyStretch(f, s.log, start);
    while true
      invariant start <= at && (at == start || at < snapshot)
      invariant at == StartOf(cursor, replies(1)) && (pages > 0 ==> cursor.Some?)
      invariant pages == 0 || replies(1).Serve?
      invariant written == Matching(f, s.log, start, Some(at)) && |written| == Filled(pages, limit)
      decreases |UpToSnapshot(f, s, at)|
    {
      PrefixOfSnapshot(f, s, start, at);
      var page := Fetch(replies(pages + 1), f, cursor, limit);
      pages := pages + 1;
      if page.Failed? {
        return Stopped(page.code), written, pages, cursor;
      }
      SnapshotStep(f, s, replies(pages).store, start, at, cursor, limit);
      written := written + TakeThrough(page.entries, snapshot);
      if Reached(page, snapshot) {
        return Done, written, pages, cursor;
      }
      at := page.next;
      cursor := Some(page.next);
    }
  }

  /**
  Fetches pages until the captured snapshot is reached.  Reply 0 answers the
  snapshot query and reply k the k-th page; reading ends because the matches
  between the cursor and the snapshot run out.
  */
  method VisitForwardSnapshot(f: Filter, begin: Option<nat>, limit: nat, replies: nat -> Reply)
    returns (outcome: Outcome, written: seq<Entry>, pages: nat, cursor: Option<nat>)
    requires limit >= 1 && Timeline(replies)
    requires replies(0).Serve? ==> Valid(replies(0).store)
    ensures outcome.Done? ==> replies(0).Serve? && replies(1).Serve?
    ensures outcome.Done? ==> written == UpToSnapshot(f, replies(0).store, StartOf(begin, replies(1)))
    ensures outcome.Done? ==>
      var s := replies(0).store; Gives(f, s.log, StartOf(begin, replies(1)), LastCursor(s.log), written)
    ensures replies(0).Serve? ==> written <= UpToSnapshot(f, replies(0).store, StartOf(begin, replies(1)))
    ensures pages > 0 ==> (pages - 1) * limit <= |written|
    ensures pages == 0 <==> replies(0).Fail?
    ensures pages == 0 ==> outcome.Stopped? && replies(0) == Fail(outcome.code) && written == []
    ensures outcome.Stopped? && pages > 0 ==> Fetch(replies(pages), f, cursor, limit) == Failed(outcome.code)
    ensures outcome.Stopped? && pages > 0 ==>
      written == Matching(f, replies(0).store.log, StartOf(begin, replies(1)), Some(StartOf(cursor, replies(1))))
  {
    var captured := FetchTail(replies(0), f, 1);
    if replies(0).Serve? { TailPageCovers(replies(0).store, f, 1); }
    if captured.Failed? {
      return Stopped(captured.code), [], 0, begin;
    }
    outcome, written, pages, cursor := VisitPages(f, begin, limit, replies, captured.next);
    FilledIsProduct(pages - 1, limit);
    MatchingGives(f, replies(0).store.log, StartOf(begin, replies(1)), LastCursor(replies(0).store.log));
  }
}
