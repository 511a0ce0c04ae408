/**
Following a log: an initial read, then page after page across transport losses,
with every matching entry written exactly once and in order.
*/
module LogFollow {
  import opened Options
  import opened Sequences
  import opened LogStore
  import opened LogPages
  import opened LogRead
  import opened LogReconnect

  const MAX_STREAM_INTERRUPTS: nat := 10
  const MAX_PAGE_LIMIT: nat := 10_000

  datatype Position = Tail(limit: nat) | After(cursor: nat) | SinceAll

  /** What a follow has seen: the store, what the initial read wrote on its own
      account, and the cursor above which everything is followed. */
  datatype View = View(store: Store, initial: seq<Entry>, start: nat)

  /** Where a follow stands: the cursor of its next query, the cursor of the
      last entry it wrote, and everything it wrote. */
  datatype Progress = Progress(cursor: nat, last: Option<nat>, written: seq<Entry>) {
    /** The cursor named when the stream breaks. */
    function Report(): nat {
      if last.Some? then last.value else cursor
    }
  }

  /** What has been written is the initial read followed by every match above
      the start through the cursor, and no match lies between the reported
      cursor and the cursor. */
  ghost predicate Delivered(f: Filter, view: View, p: Progress) {
    var log := view.store.log;
    && Valid(view.store) && p.cursor <= LastCursor(log)
    && (view.start <= p.cursor || view.start <= view.store.expiredThrough)
    && p.written == view.initial + Matching(f, log, view.start, Some(p.cursor))
    && p.Report() <= p.cursor && Matching(f, log, p.Report(), Some(p.cursor)) == []
  }

  function LastWritten(entries: seq<Entry>, last: Option<nat>): Option<nat> {
    if entries == [] then last else Some(entries[|entries| - 1].cursor)
  }

  /** Nothing matches between the last entry of a stretch and its end. */
  lemma {:induction false} NothingAfterLast(f: Filter, log: seq<Entry>, a: nat, b: nat)
    requires Ordered(log) && Matching(f, log, a, Some(b)) != []
    ensures var entries := Matching(f, log, a, Some(b)); var last := entries[|entries| - 1].cursor;
      a < last <= b && Matching(f, log, last, Some(b)) == []
  {
    var entries := Matching(f, log, a, Some(b));
    var last := entries[|entries| - 1];
    MatchingMembers(f, log, a, Some(b));
    assert last in entries;
    MatchingOrdered(f, log, a, Some(b));
    LastIsHighest(entries);
    forall e | e in log ensures !(Within(e.cursor, last.cursor, Some(b)) && Selects(f, e)) {
      if Within(e.cursor, a, Some(b)) && Selects(f, e) { assert e in entries; }
    }
    NothingWithin(f, log, last.cursor, Some(b));
  }

  /** A page is written and the cursor moves; a failed read changes nothing. */
  function Advance(f: Filter, p: Progress, page: Fetched): Progress {
    match page
    case Got(entries, next, _) => Progress(next, LastWritten(entries, p.last), p.written + entries)
    case Failed(_) => p
  }

  /** The reported cursor after a page is still right up to the next cursor. */
  lemma {:induction false} ReportAdvances(f: Filter, log: seq<Entry>, p: Progress, next: nat)
    requires Ordered(log) && p.Report() <= p.cursor <= next && Matching(f, log, p.Report(), Some(p.cursor)) == []
    ensures var q := Progress(next, LastWritten(Matching(f, log, p.cursor, Some(next)), p.last), []);
      q.Report() <= next && Matching(f, log, q.Report(), Some(next)) == []
  {
    var entries := Matching(f, log, p.cursor, Some(next));
    if entries != [] {
      NothingAfterLast(f, log, p.cursor, next);
    } else if p.last.Some? {
      MatchingSplit(f, log, p.last.value, p.cursor, next);
    } else {
      EmptyStretch(f, log, next);
    }
  }

  /** One followed page, whether read on the old or on a new connection. */
  lemma {:induction false} PageDelivers(f: Filter, view: View, t: Store, p: Progress)
    requires Delivered(f, view, p) && Evolves(view.store, t) && Fetch(Serve(t), f, Some(p.cursor), PAGE_LIMIT).Got?
    ensures Delivered(f, view.(store := t), Advance(f, p, Fetch(Serve(t), f, Some(p.cursor), PAGE_LIMIT)))
  {
    var page := Fetch(Serve(t), f, Some(p.cursor), PAGE_LIMIT);
    ForwardPageCovers(t, f, Some(p.cursor), PAGE_LIMIT);
    StretchIsStable(f, view.store, t, view.start, p.cursor);
    StretchIsStable(f, view.store, t, p.Report(), p.cursor);
    MatchingSplit(f, t.log, view.start, p.cursor, page.next);
    Assoc(view.initial, Matching(f, t.log, view.start, Some(p.cursor)), page.entries);
    ReportAdvances(f, t.log, p, page.next);
  }

  /** A run that stopped and a rerun after the reported cursor together write
      what one uninterrupted run would have written. */
  lemma {:induction false} ResumeContinues(f: Filter, view: View, t: Store, p: Progress, later: nat)
    requires Delivered(f, view, p) && Evolves(view.store, t) && view.start <= p.cursor <= later
    ensures p.written + Matching(f, t.log, p.Report(), Some(later))
      == view.initial + Matching(f, t.log, view.start, Some(later))
  {
    var report, cursor := p.Report(), p.cursor;
    StretchIsStable(f, view.store, t, view.start, cursor);
    StretchIsStable(f, view.store, t, report, cursor);
    MatchingSplit(f, t.log, report, cursor, later);
    MatchingSplit(f, t.log, view.start, cursor, later);
    Assoc(view.initial, Matching(f, t.log, view.start, Some(cursor)), Matching(f, t.log, cursor, Some(later)));
    assert [] + Matching(f, t.log, cursor, Some(later)) == Matching(f, t.log, cursor, Some(later));
  }

  // --------------------------------------------------------------- the script

  /** Later steps of the script serve later states of the same store. */
  ghost predicate Growing(script: seq<Step>) {
    && (forall i :: 0 <= i < |script| && script[i].reply.Serve? ==> Valid(script[i].reply.store))
    && (forall i, j :: 0 <= i < j < |script| && script[i].reply.Serve? && script[j].reply.Serve? ==>
      Evolves(script[i].reply.store, script[j].reply.store))
  }

  ghost predicate Newest(f: Filter, s: Store, limit: nat, view: View) {
    && view.start == LastCursor(s.log)
    && view.initial == LastOf(Matching(f, s.log, s.expiredThrough, Some(LastCursor(s.log))), limit)
  }

  /** What the initial read of a position accounts for. */
  ghost predicate Begins(position: Position, f: Filter, script: seq<Step>, view: View) {
    match position
    case Tail(limit) =>
      |script| > 0 && script[0].reply.Serve? && Newest(f, script[0].reply.store, limit, view)
    case After(cursor) => view.start == cursor && view.initial == []
    case SinceAll =>
      |script| > 1 && script[1].reply.Serve? && view.start == script[1].reply.store.expiredThrough && view.initial == []
  }

  datatype Started = Started(progress: Progress) | Aborted(code: ErrorCode)

  function Begun(page: Fetched): Progress
    requires page.Got?
  {
    Progress(page.next, LastWritten(page.entries, None), page.entries)
  }

  /** The first page decides a tail or a start after a cursor. */
  function Opening(page: Fetched): Started {
    if page.Got? then Started(Begun(page)) else Aborted(MapIdentity(page.code))
  }

  lemma {:induction false} TailDelivers(f: Filter, s: Store, limit: nat)
    requires Valid(s) && limit >= 1
    ensures FetchTail(Serve(s), f, limit).Got?
    ensures var page := FetchTail(Serve(s), f, limit); var view := View(s, page.entries, LastCursor(s.log));
      Newest(f, s, limit, view) && Delivered(f, view, Begun(page))
  {
    TailPageCovers(s, f, limit);
    NewestDelivered(f, s, limit, LastOf(Matching(f, s.log, s.expiredThrough, Some(LastCursor(s.log))), limit));
  }

  lemma {:induction false} LastOfLast<T>(s: seq<T>, n: nat)
    requires n >= 1 && s != []
    ensures LastOf(s, n) != [] && LastOf(s, n)[|LastOf(s, n)| - 1] == s[|s| - 1]
  {
  }

  lemma {:induction false} NewestDelivered(f: Filter, s: Store, limit: nat, entries: seq<Entry>)
    requires Valid(s) && limit >= 1 && entries == LastOf(Matching(f, s.log, s.expiredThrough, Some(LastCursor(s.log))), limit)
    ensures Delivered(f, View(s, entries, LastCursor(s.log)), Progress(LastCursor(s.log), LastWritten(entries, None), entries))
  {
    var end := LastCursor(s.log);
    var all := Matching(f, s.log, s.expiredThrough, Some(end));
    EmptyStretch(f, s.log, end);
    assert entries + [] == entries;
    if all != [] {
      LastOfLast(all, limit);
      NothingAfterLast(f, s.log, s.expiredThrough, end);
    }
  }

  /** The start of a follow after a given cursor. */
  lemma {:induction false} AfterDelivers(f: Filter, t: Store, cursor: nat)
    requires Valid(t) && Fetch(Serve(t), f, Some(cursor), PAGE_LIMIT).Got?
    ensures Delivered(f, View(t, [], cursor), Begun(Fetch(Serve(t), f, Some(cursor), PAGE_LIMIT)))
  {
    var page := Fetch(Serve(t), f, Some(cursor), PAGE_LIMIT);
    ForwardPageCovers(t, f, Some(cursor), PAGE_LIMIT);
    assert [] + page.entries == page.entries;
    EmptyStretch(f, t.log, cursor);
    ReportAdvances(f, t.log, Progress(cursor, None, []), page.next);
  }

  /** The start of a follow over everything stored, once its snapshot is reached. */
  lemma {:induction false} SinceDelivers(f: Filter, s: Store, t: Store, start: nat, written: seq<Entry>)
    requires Evolves(s, t) && start <= t.expiredThrough && written == UpToSnapshot(f, s, start)
    ensures Delivered(f, View(t, [], start), Progress(LastCursor(s.log), LastWritten(written, None), written))
  {
    var end := LastCursor(s.log);
    StretchIsStable(f, s, t, start, end);
    assert [] + written == written;
    if written != [] {
      NothingAfterLast(f, t.log, start, end);
    } else {
      EmptyStretch(f, t.log, end);
    }
  }

  lemma {:induction false} LastWrittenAppend(a: seq<Entry>, b: seq<Entry>, last: Option<nat>)
    ensures LastWritten(a + b, last) == LastWritten(b, LastWritten(a, last))
  {
    if b == [] { assert a + b == a; }
  }

  // ------------------------------------------------------------ the initial read

  /** A started follow has delivered its initial read and knows the store it saw last. */
  ghost predicate Underway(position: Position, f: Filter, script: seq<Step>, i: nat, view: View, p: Progress) {
    && 0 < i <= |script| && script[i - 1].reply == Serve(view.store)
    && Begins(position, f, script, view) && Delivered(f, view, p)
  }

  method FollowTail(f: Filter, limit: nat, script: seq<Step>) returns (r: Started, ghost view: View)
    requires Growing(script) && script != [] && limit >= 1
    ensures r.Started? ==> Underway(Tail(limit), f, script, 1, view, r.progress)
    ensures r == Opening(FetchTail(script[0].reply, f, limit))
    ensures r.Aborted? ==> script[0].reply.Fail?
  {
    view := View(Store([], 0), [], 0);
    var page := FetchTail(script[0].reply, f, limit);
    if script[0].reply.Serve? { TailDelivers(f, script[0].reply.store, limit); }
    if page.Failed? { return Aborted(MapIdentity(page.code)), view; }
    view := View(script[0].reply.store, page.entries, LastCursor(script[0].reply.store.log));
    return Started(Begun(page)), view;
  }

  method FollowAfter(f: Filter, cursor: nat, script: seq<Step>) returns (r: Started, ghost view: View)
    requires Growing(script) && script != []
    ensures r.Started? ==> Underway(After(cursor), f, script, 1, view, r.progress)
    ensures r == Opening(Fetch(script[0].reply, f, Some(cursor), PAGE_LIMIT))
  {
    view := View(Store([], 0), [], cursor);
    var page := Fetch(script[0].reply, f, Some(cursor), PAGE_LIMIT);
    if page.Failed? { return Aborted(MapIdentity(page.code)), view; }
    AfterDelivers(f, script[0].reply.store, cursor);
    view := view.(store := script[0].reply.store);
    return Started(Begun(page)), view;
  }

  /** The cursor after the pages `script[1..k]`, starting without one. */
  function PagedCursor(f: Filter, script: seq<Step>, k: nat): Option<nat>
    requires k <= |script|
  {
    if k <= 1 then None else
    var page := Fetch(script[k - 1].reply, f, PagedCursor(f, script, k - 1), MAX_PAGE_LIMIT);
    if page.Got? then Some(page.next) else None
  }

  /** The page that step k brings at that point. */
  function PageAt(f: Filter, script: seq<Step>, k: nat): Fetched
    requires k < |script|
  {
    Fetch(script[k].reply, f, PagedCursor(f, script, k), MAX_PAGE_LIMIT)
  }

  /** The steps before k all brought pages, none of which reached the snapshot. */
  predicate Paging(f: Filter, script: seq<Step>, snapshot: nat, k: nat)
    requires k <= |script|
  {
    k <= 1 || (Paging(f, script, snapshot, k - 1) && PageAt(f, script, k - 1).Got? && !Reached(PageAt(f, script, k - 1), snapshot))
  }

  /** The matches up to the snapshot that the steps before k brought. */
  function PagedEntries(f: Filter, script: seq<Step>, k: nat): seq<Entry>
    requires 1 < |script| && k <= |script| && script[0].reply.Serve?
  {
    Matching(f, script[0].reply.store.log, StartOf(None, script[1].reply), Some(StartOf(PagedCursor(f, script, k), script[1].reply)))
  }

  /** The reading of pages after the snapshot query stopped before step i: the
      script ended there, or step i failed. */
  ghost predicate StoppedEarly(f: Filter, script: seq<Step>, snapshot: nat, i: nat, code: ErrorCode) {
    && 0 < i <= |script| && Paging(f, script, snapshot, i)
    && if i == |script| then code == Interrupted else PageAt(f, script, i).Failed? && code == MapIdentity(PageAt(f, script, i).code)
  }

  lemma {:induction false} PagingStep(f: Filter, script: seq<Step>, snapshot: nat, i: nat)
    requires 0 < i < |script| && Paging(f, script, snapshot, i) && PageAt(f, script, i).Got?
    ensures script[i].reply.Serve? && PagedCursor(f, script, i + 1) == Some(PageAt(f, script, i).next)
    ensures !Reached(PageAt(f, script, i), snapshot) ==> Paging(f, script, snapshot, i + 1)
  {
  }

  /** Before step i of the paging: what has been written is what the pages so far hold. */
  ghost predicate PagedSoFar(f: Filter, script: seq<Step>, snapshot: nat, i: nat, written: seq<Entry>) {
    && Growing(script) && 1 < |script| && 0 < i <= |script| && script[0].reply.Serve? && Paging(f, script, snapshot, i)
    && snapshot == LastCursor(script[0].reply.store.log) && written == PagedEntries(f, script, i)
    && (i > 1 ==> script[1].reply.Serve? && PagedCursor(f, script, i).Some?)
    && var start, at := StartOf(None, script[1].reply), StartOf(PagedCursor(f, script, i), script[1].reply);
    start <= at && (at == start || at < snapshot)
  }

  lemma {:induction false} PageGoesOn(f: Filter, script: seq<Step>, snapshot: nat, i: nat, written: seq<Entry>)
    requires PagedSoFar(f, script, snapshot, i, written) && i < |script|
    requires PageAt(f, script, i).Got? && !Reached(PageAt(f, script, i), snapshot)
    ensures PagedSoFar(f, script, snapshot, i + 1, written + TakeThrough(PageAt(f, script, i).entries, snapshot))
  {
    var s, cursor := script[0].reply.store, PagedCursor(f, script, i);
    PagingStep(f, script, snapshot, i);
    SnapshotStep(f, s, script[i].reply.store, StartOf(None, script[1].reply), StartOf(cursor, script[1].reply), cursor, MAX_PAGE_LIMIT);
  }

  lemma {:induction false} PageReaches(f: Filter, script: seq<Step>, snapshot: nat, i: nat, written: seq<Entry>)
    requires PagedSoFar(f, script, snapshot, i, written) && i < |script|
    requires PageAt(f, script, i).Got? && Reached(PageAt(f, script, i), snapshot)
    ensures var all := written + TakeThrough(PageAt(f, script, i).entries, snapshot);
      script[i].reply.Serve? && script[1].reply.Serve? &&
      Underway(SinceAll, f, script, i + 1, View(script[i].reply.store, [], script[1].reply.store.expiredThrough),
        Progress(snapshot, LastWritten(all, None), all))
  {
    var s, t, cursor := script[0].reply.store, script[i].reply.store, PagedCursor(f, script, i);
    var start := StartOf(None, script[1].reply);
    PagingStep(f, script, snapshot, i);
    SnapshotStep(f, s, t, start, StartOf(cursor, script[1].reply), cursor, MAX_PAGE_LIMIT);
    assert i > 1 ==> Evolves(script[1].reply.store, t);
    SinceDelivers(f, s, t, start, UpToSnapshot(f, s, start));
  }

  /** What the pages before step i hold at or below the snapshot. */
  function PagedFold(f: Filter, script: seq<Step>, snapshot: nat, i: nat): seq<Entry>
    requires i <= |script|
  {
    if i <= 1 || PageAt(f, script, i - 1).Failed? then [] else
    PagedFold(f, script, snapshot, i - 1) + TakeThrough(PageAt(f, script, i - 1).entries, snapshot)
  }

  lemma {:induction false} FoldIsPaged(f: Filter, script: seq<Step>, snapshot: nat, i: nat)
    requires Growing(script) && 1 < |script| && 0 < i <= |script| && script[0].reply.Serve? && Paging(f, script, snapshot, i)
    requires snapshot == LastCursor(script[0].reply.store.log)
    ensures PagedSoFar(f, script, snapshot, i, PagedFold(f, script, snapshot, i))
  {
    if i == 1 {
      EmptyStretch(f, script[0].reply.store.log, StartOf(None, script[1].reply));
    } else {
      FoldIsPaged(f, script, snapshot, i - 1);
      PageGoesOn(f, script, snapshot, i - 1, PagedFold(f, script, snapshot, i - 1));
    }
  }

  /** Reads pages until the snapshot.  `i` is the first step not used for a page. */
  method ReadPages(f: Filter, script: seq<Step>, snapshot: nat)
    returns (r: Started, i: nat, written: seq<Entry>)
    requires |script| > 1
    ensures 0 < i <= |script|
    ensures r.Started? ==> 1 < i && Paging(f, script, snapshot, i - 1)
    ensures r.Started? ==> PageAt(f, script, i - 1).Got? && Reached(PageAt(f, script, i - 1), snapshot)
    ensures r.Started? ==> r.progress == Progress(snapshot, LastWritten(written, None), written)
    ensures r.Aborted? ==> StoppedEarly(f, script, snapshot, i, r.code)
    ensures written == PagedFold(f, script, snapshot, i)
  {
    i, written := 1, [];
    var cursor, last: Option<nat> := None, None;
    while i < |script|
      invariant 0 < i <= |script| && Paging(f, script, snapshot, i) && cursor == PagedCursor(f, script, i)
      invariant written == PagedFold(f, script, snapshot, i) && last == LastWritten(written, None)
      decreases |script| - i
    {
      var page := Fetch(script[i].reply, f, cursor, MAX_PAGE_LIMIT);
      assert page == PageAt(f, script, i);
      if page.Failed? { return Aborted(MapIdentity(page.code)), i, written; }
      var visible := TakeThrough(page.entries, snapshot);
      LastWrittenAppend(written, visible, None);
      written, last := written + visible, LastWritten(visible, last);
      cursor, i := Some(page.next), i + 1;
      if Reached(page, snapshot) { return Started(Progress(snapshot, last, written)), i, written; }
    }
    r := Aborted(Interrupted);
  }

  /** The initial paging writes precisely the matches up to the snapshot that
      reply 0 gave, or stops early with precisely those of the pages it read. */
  method ReadToSnapshot(f: Filter, script: seq<Step>, snapshot: nat)
    returns (r: Started, i: nat, written: seq<Entry>, ghost view: View)
    requires Growing(script) && |script| > 1 && script[0].reply.Serve? && snapshot == LastCursor(script[0].reply.store.log)
    ensures r.Started? ==> Underway(SinceAll, f, script, i, view, r.progress) && written == r.progress.written
    ensures r.Started? ==> r.progress.cursor == snapshot && 1 < i && Paging(f, script, snapshot, i - 1)
    ensures r.Started? ==> PageAt(f, script, i - 1).Got? && Reached(PageAt(f, script, i - 1), snapshot)
    ensures r.Aborted? ==> StoppedEarly(f, script, snapshot, i, r.code) && written == PagedEntries(f, script, i)
  {
    r, i, written := ReadPages(f, script, snapshot);
    view := View(Store([], 0), [], 0);
    if r.Started? {
      FoldIsPaged(f, script, snapshot, i - 1);
      PageReaches(f, script, snapshot, i - 1, PagedFold(f, script, snapshot, i - 1));
      view := View(script[i - 1].reply.store, [], script[1].reply.store.expiredThrough);
    } else {
      FoldIsPaged(f, script, snapshot, i);
    }
  }

  /** Captures one high-water mark and reads everything stored up to it. */
  method FollowFromOldest(f: Filter, script: seq<Step>)
    returns (r: Started, i: nat, written: seq<Entry>, ghost view: View)
    requires Growing(script) && script != []
    ensures r.Started? ==> Underway(SinceAll, f, script, i, view, r.progress) && written == r.progress.written
    ensures r.Started? ==> Opened(SinceAll, f, script, i, r.progress)
    ensures r.Aborted? ==> NotOpened(SinceAll, f, script, i, r.code, written)
  {
    i, written, view := 1, [], View(Store([], 0), [], 0);
    var captured := FetchTail(script[0].reply, f, 1);
    if script[0].reply.Serve? { TailPageCovers(script[0].reply.store, f, 1); }
    if captured.Failed? { return Aborted(MapIdentity(captured.code)), i, written, view; }
    if |script| == 1 { return Aborted(Interrupted), i, written, view; }
    r, i, written, view := ReadToSnapshot(f, script, captured.next);
  }

  /** What the initial read returns when it succeeds, `first` being the first step
      it leaves for the follow. */
  ghost predicate Opened(position: Position, f: Filter, script: seq<Step>, first: nat, p: Progress) {
    && 0 < first <= |script|
    && match position
       case Tail(limit) => first == 1 && limit >= 1 && Started(p) == Opening(FetchTail(script[0].reply, f, limit))
       case After(cursor) => first == 1 && Started(p) == Opening(Fetch(script[0].reply, f, Some(cursor), PAGE_LIMIT))
       case SinceAll =>
         && script[0].reply.Serve? && 1 < first && p.cursor == LastCursor(script[0].reply.store.log)
         && Paging(f, script, p.cursor, first - 1)
         && PageAt(f, script, first - 1).Got? && Reached(PageAt(f, script, first - 1), p.cursor)
  }

  /** Why the initial read failed, and what it had written by then. */
  ghost predicate NotOpened(position: Position, f: Filter, script: seq<Step>, i: nat, code: ErrorCode, written: seq<Entry>) {
    if script == [] then code == Interrupted && written == [] else
    match position
    case Tail(limit) => limit >= 1 && written == [] && Aborted(code) == Opening(FetchTail(script[0].reply, f, limit))
    case After(cursor) => written == [] && Aborted(code) == Opening(Fetch(script[0].reply, f, Some(cursor), PAGE_LIMIT))
    case SinceAll =>
      if script[0].reply.Fail? then written == [] && code == MapIdentity(script[0].reply.code) else
      && StoppedEarly(f, script, LastCursor(script[0].reply.store.log), i, code)
      && written == if |script| == 1 then [] else PagedEntries(f, script, i)
  }

  // ------------------------------------------------------------- the follow loop

  /** The follow as a plain fold: every step from `first` before `end` is one
      read after the current cursor. */
  function AdvanceAll(f: Filter, script: seq<Step>, first: nat, end: nat, p: Progress): Progress
    requires end <= |script|
    decreases end
  {
    if end <= first then p else
    var q := AdvanceAll(f, script, first, end - 1, p);
    Advance(f, q, Fetch(script[end - 1].reply, f, Some(q.cursor), PAGE_LIMIT))
  }

  lemma {:induction false} NothingReadChangesNothing(f: Filter, script: seq<Step>, first: nat, at: nat, end: nat, p: Progress)
    requires first <= at <= end <= |script|
    requires NothingRead(script, at, end, f, AdvanceAll(f, script, first, at, p).cursor)
    ensures AdvanceAll(f, script, first, end, p) == AdvanceAll(f, script, first, at, p)
    decreases end
  {
    if end > at { NothingReadChangesNothing(f, script, first, at, end - 1, p); }
  }

  /** One more page keeps the follow going, whatever was lost in between. */
  lemma {:induction false} StaysUnderway(position: Position, f: Filter, script: seq<Step>, seen: nat, i: nat, view: View,
      p: Progress, page: Fetched)
    requires Growing(script) && Underway(position, f, script, seen, view, p) && seen < i <= |script|
    requires page.Got? && page == Fetch(script[i - 1].reply, f, Some(p.cursor), PAGE_LIMIT)
    ensures script[i - 1].reply.Serve?
    ensures Underway(position, f, script, i, view.(store := script[i - 1].reply.store), Advance(f, p, page))
  {
    assert Evolves(script[seen - 1].reply.store, script[i - 1].reply.store);
    PageDelivers(f, view, script[i - 1].reply.store, p);
  }

  /** The outcome of a follow: its error and the cursor it names for a rerun. */
  datatype FollowEnd = FollowEnd(code: ErrorCode, reported: Option<nat>)

  /** Where the loop stands: the next step, what has been delivered, and how
      often the stream has been interrupted. */
  datatype Head = Head(at: nat, p: Progress, interruptions: nat)

  function ReadAt(f: Filter, script: seq<Step>, h: Head): Fetched
    requires h.at < |script|
  {
    Fetch(script[h.at].reply, f, Some(h.p.cursor), PAGE_LIMIT)
  }

  /** A loss that is answered by reconnecting. */
  predicate Reconnects(f: Filter, noReconnect: bool, script: seq<Step>, h: Head)
    requires h.at < |script|
  {
    && FailsTransiently(script[h.at].reply, f, h.p.cursor) && !noReconnect
    && h.interruptions + 1 < MAX_STREAM_INTERRUPTS
  }

  /** One turn of the loop that brings a page: read at once, or by the first
      attempt after a loss that did not fail transiently, in time like all before it. */
  predicate TurnsTo(f: Filter, noReconnect: bool, script: seq<Step>, h: Head, g: Head) {
    && h.at < g.at <= |script| && g.p == Advance(f, h.p, Fetch(script[g.at - 1].reply, f, Some(h.p.cursor), PAGE_LIMIT))
    && Fetch(script[g.at - 1].reply, f, Some(h.p.cursor), PAGE_LIMIT).Got?
    && if ReadAt(f, script, h).Got? then g.at == h.at + 1 && g.interruptions == h.interruptions
       else
         && Reconnects(f, noReconnect, script, h) && g.interruptions == h.interruptions + 1
         && Retried(script, h.at + 1, g.at - 1, f, h.p.cursor)
         && WithinBudget(script, h.at + 1, g.at, script[h.at].clock)
  }

  /** The turn that ends the follow, and with what. */
  predicate TurnEnds(f: Filter, noReconnect: bool, script: seq<Step>, h: Head, used: nat, end: FollowEnd) {
    if h.at >= |script| then used == h.at && end == FollowEnd(Interrupted, None) else
    var read := ReadAt(f, script, h);
    && read.Failed?
    && if !Transient(read.code) then used == h.at + 1 && end == FollowEnd(MapIdentity(read.code), None)
       else if noReconnect then used == h.at + 1 && end == FollowEnd(read.code, Some(h.p.Report()))
       else if h.interruptions + 1 >= MAX_STREAM_INTERRUPTS then
         used == h.at + 1 && end == FollowEnd(ReconnectExhausted, Some(h.p.Report()))
       else
         && h.at < used <= |script| && !Transient(end.code)
         && Retried(script, h.at + 1, used - 1, f, h.p.cursor)
         && Justified(script, h.at + 1, used, script[h.at].clock, f, h.p.cursor, end.code)
         && end.reported == if end.code == ReconnectExhausted then Some(h.p.Report()) else None
  }

  /** The turns of a run, from the initial read on. */
  predicate Turns(f: Filter, noReconnect: bool, script: seq<Step>, heads: seq<Head>) {
    && heads != []
    && (|heads| > 1 ==>
        TurnsTo(f, noReconnect, script, heads[|heads| - 2], heads[|heads| - 1]) && Turns(f, noReconnect, script, heads[..|heads| - 1]))
  }

  /** One turn of the loop: the next page, on this connection or after losing it
      on a new one, or the end of the follow. */
  method NextPage(f: Filter, noReconnect: bool, script: seq<Step>, h: Head)
    returns (next: Option<Head>, used: nat, end: FollowEnd)
    requires h.at < |script|
    ensures next.Some? ==> TurnsTo(f, noReconnect, script, h, next.value) && used == next.value.at
    ensures next.None? ==> TurnEnds(f, noReconnect, script, h, used, end)
    ensures h.at < used <= |script| && NothingRead(script, h.at, if next.Some? then used - 1 else used, f, h.p.cursor)
  {
    var page := ReadAt(f, script, h);
    used, end := h.at + 1, FollowEnd(OtherFailure, None);
    if page.Got? {
      return Some(Head(used, Advance(f, h.p, page), h.interruptions)), used, end;
    }
    if !Transient(page.code) {
      return None, used, FollowEnd(MapIdentity(page.code), None);
    }
    if noReconnect {
      return None, used, FollowEnd(page.code, Some(h.p.Report()));
    }
    if h.interruptions + 1 >= MAX_STREAM_INTERRUPTS {
      return None, used, FollowEnd(ReconnectExhausted, Some(h.p.Report()));
    }
    next, used, end := PageAfterLoss(f, noReconnect, script, h);
  }

  /** Reconnects after a loss and reads the next page. */
  method PageAfterLoss(f: Filter, noReconnect: bool, script: seq<Step>, h: Head)
    returns (next: Option<Head>, used: nat, end: FollowEnd)
    requires h.at < |script| && Reconnects(f, noReconnect, script, h)
    ensures next.Some? ==> TurnsTo(f, noReconnect, script, h, next.value) && used == next.value.at
    ensures next.None? ==> TurnEnds(f, noReconnect, script, h, used, end)
    ensures h.at < used <= |script| && NothingRead(script, h.at, if next.Some? then used - 1 else used, f, h.p.cursor)
  {
    var page, attempts;
    page, used, attempts := Reconnect(f, h.p.cursor, script, h.at + 1, script[h.at].clock);
    RetriedReadNothing(script, h.at + 1, used - 1, f, h.p.cursor);
    NothingReadFrom(script, h.at, if page.Got? then used - 1 else used, f, h.p.cursor);
    if page.Failed? {
      next, end := None, FollowEnd(page.code, if page.code == ReconnectExhausted then Some(h.p.Report()) else None);
    } else {
      next, end := Some(Head(used, Advance(f, h.p, page), h.interruptions + 1)), FollowEnd(OtherFailure, None);
    }
  }

  lemma {:induction false} NothingReadFrom(script: seq<Step>, at: nat, end: nat, f: Filter, cursor: nat)
    requires at < end <= |script| && NothingRead(script, at + 1, end, f, cursor)
    requires Fetch(script[at].reply, f, Some(cursor), PAGE_LIMIT).Failed?
    ensures NothingRead(script, at, end, f, cursor)
    decreases end
  {
    if end > at + 1 { NothingReadFrom(script, at, end - 1, f, cursor); }
  }

  lemma {:induction false} TurnsMore(f: Filter, noReconnect: bool, script: seq<Step>, heads: seq<Head>, g: Head)
    requires Turns(f, noReconnect, script, heads) && TurnsTo(f, noReconnect, script, heads[|heads| - 1], g)
    ensures Turns(f, noReconnect, script, heads + [g])
  {
    assert (heads + [g])[..|heads|] == heads;
  }

  /** However the replies are turned into pages, the fold over them delivers every
      match exactly once. */
  lemma {:induction false} FoldDelivers(position: Position, f: Filter, script: seq<Step>, first: nat, end: nat,
      opening: Progress, openingView: View) returns (seen: nat, view: View)
    requires Growing(script) && Underway(position, f, script, first, openingView, opening) && first <= end <= |script|
    ensures seen <= end && Underway(position, f, script, seen, view, AdvanceAll(f, script, first, end, opening))
    decreases end
  {
    if end == first {
      seen, view := first, openingView;
    } else {
      seen, view := FoldDelivers(position, f, script, first, end - 1, opening, openingView);
      var p := AdvanceAll(f, script, first, end - 1, opening);
      var page := Fetch(script[end - 1].reply, f, Some(p.cursor), PAGE_LIMIT);
      if page.Got? {
        StaysUnderway(position, f, script, seen, end, view, p, page);
        seen, view := end, view.(store := script[end - 1].reply.store);
      }
    }
  }

  lemma {:induction false} TurnFolds(f: Filter, noReconnect: bool, script: seq<Step>, first: nat, opening: Progress, h: Head, g: Head)
    requires first <= h.at < |script| && h.p == AdvanceAll(f, script, first, h.at, opening)
    requires TurnsTo(f, noReconnect, script, h, g) && NothingRead(script, h.at, g.at - 1, f, h.p.cursor)
    ensures g.p == AdvanceAll(f, script, first, g.at, opening)
  {
    NothingReadChangesNothing(f, script, first, h.at, g.at - 1, opening);
  }

  lemma {:induction false} TurnReadsNothingBefore(f: Filter, noReconnect: bool, script: seq<Step>, h: Head, g: Head)
    requires h.at < |script| && TurnsTo(f, noReconnect, script, h, g)
    ensures NothingRead(script, h.at, g.at - 1, f, h.p.cursor)
  {
    if ReadAt(f, script, h).Failed? {
      RetriedReadNothing(script, h.at + 1, g.at - 1, f, h.p.cursor);
      if h.at < g.at - 1 { NothingReadFrom(script, h.at, g.at - 1, f, h.p.cursor); }
    }
  }

  /** What any head of the loop has is the fold over the replies before it. */
  lemma {:induction false} HeadsFold(f: Filter, noReconnect: bool, script: seq<Step>, heads: seq<Head>, k: nat)
    requires Turns(f, noReconnect, script, heads) && k < |heads| && heads[0].at <= |script|
    ensures heads[0].at <= heads[k].at <= |script|
    ensures heads[k].p == AdvanceAll(f, script, heads[0].at, heads[k].at, heads[0].p)
  {
    if k < |heads| - 1 {
      HeadsFold(f, noReconnect, script, heads[..|heads| - 1], k);
    } else if k > 0 {
      var h, g := heads[k - 1], heads[k];
      HeadsFold(f, noReconnect, script, heads[..k], k - 1);
      TurnReadsNothingBefore(f, noReconnect, script, h, g);
      TurnFolds(f, noReconnect, script, heads[0].at, heads[0].p, h, g);
    }
  }

  /** So at every head of the loop every match so far was written exactly once. */
  lemma {:induction false} EveryHeadDelivers(position: Position, f: Filter, noReconnect: bool, script: seq<Step>, heads: seq<Head>,
      k: nat, openingView: View) returns (seen: nat, view: View)
    requires Growing(script) && Turns(f, noReconnect, script, heads) && k < |heads|
    requires Underway(position, f, script, heads[0].at, openingView, heads[0].p)
    ensures seen <= heads[k].at && Underway(position, f, script, seen, view, heads[k].p)
  {
    HeadsFold(f, noReconnect, script, heads, k);
    seen, view := FoldDelivers(position, f, script, heads[0].at, heads[k].at, heads[0].p, openingView);
  }

  /** A follow as a whole: its turns lead from the opening to the turn that ends
      it, and what it has is the fold over the steps it used. */
  predicate Followed(f: Filter, noReconnect: bool, script: seq<Step>, first: nat, opening: Progress,
      used: nat, p: Progress, heads: seq<Head>, end: FollowEnd)
  {
    && first <= used <= |script| && p == AdvanceAll(f, script, first, used, opening)
    && Turns(f, noReconnect, script, heads) && heads[0] == Head(first, opening, 0) && heads[|heads| - 1].p == p
    && TurnEnds(f, noReconnect, script, heads[|heads| - 1], used, end)
  }

  /** The loop: turn after turn until one ends it. */
  method FollowTurns(f: Filter, noReconnect: bool, script: seq<Step>, first: nat, opening: Progress)
    returns (end: FollowEnd, used: nat, p: Progress, heads: seq<Head>)
    requires first <= |script|
    ensures Followed(f, noReconnect, script, first, opening, used, p, heads, end)
  {
    var h := Head(first, opening, 0);
    heads := [h];
    while h.at < |script|
      invariant first <= h.at <= |script| && h.p == AdvanceAll(f, script, first, h.at, opening)
      invariant Turns(f, noReconnect, script, heads) && heads[0] == Head(first, opening, 0) && heads[|heads| - 1] == h
      decreases |script| - h.at
    {
      var next;
      next, used, end := NextPage(f, noReconnect, script, h);
      if next.None? {
        NothingReadChangesNothing(f, script, first, h.at, used, opening);
        return end, used, h.p, heads;
      }
      TurnFolds(f, noReconnect, script, first, opening, h, next.value);
      TurnsMore(f, noReconnect, script, heads, next.value);
      h, heads := next.value, heads + [next.value];
    }
    return FollowEnd(Interrupted, None), h.at, h.p, heads;
  }

  /**
  Follows the log from where the initial read left it until an error or an
  interruption.  Whatever connections are lost, what is written is the plain
  fold over the replies used, and every match is written exactly once.  `heads`
  are the states at the head of the loop; the last of them decides the end.
  */
  method FollowFrom(position: Position, f: Filter, noReconnect: bool, script: seq<Step>, first: nat, opening: Progress,
      ghost openingView: View)
    returns (end: FollowEnd, used: nat, p: Progress, heads: seq<Head>, ghost view: View)
    requires Growing(script) && Underway(position, f, script, first, openingView, opening)
    ensures Followed(f, noReconnect, script, first, opening, used, p, heads, end)
    ensures Begins(position, f, script, view) && Delivered(f, view, p)
  {
    end, used, p, heads := FollowTurns(f, noReconnect, script, first, opening);
    ghost var seen;
    seen, view := FoldDelivers(position, f, script, first, used, opening, openingView);
  }

  /** The initial read of any position. */
  method FollowInitial(position: Position, f: Filter, script: seq<Step>)
    returns (r: Started, first: nat, written: seq<Entry>, ghost view: View)
    requires Growing(script) && (position.Tail? ==> position.limit >= 1)
    ensures r.Started? ==> Underway(position, f, script, first, view, r.progress) && Opened(position, f, script, first, r.progress)
    ensures r.Aborted? ==> NotOpened(position, f, script, first, r.code, written)
  {
    first, written, view := 1, [], View(Store([], 0), [], 0);
    if script == [] { return Aborted(Interrupted), first, written, view; }
    match position {
      case Tail(limit) => r, view := FollowTail(f, limit, script);
      case After(cursor) => r, view := FollowAfter(f, cursor, script);
      case SinceAll => r, first, written, view := FollowFromOldest(f, script);
    }
  }

  /** Said of the fields of the entries: a follow writes what its initial read gives,
      and then every entry above its start through its cursor that was asked for,
      each once and in order.  The initial read of a tail gives the newest that
      were asked for. */
  ghost predicate WritesAsked(position: Position, f: Filter, script: seq<Step>, view: View, p: Progress) {
    exists followed: seq<Entry> ::
      && p.written == view.initial + followed && Gives(f, view.store.log, view.start, p.cursor, followed)
      && if position.Tail? then |script| > 0 && script[0].reply.Serve? && GivesNewest(f, script[0].reply.store, position.limit, view.initial)
         else view.initial == []
  }

  lemma {:induction false} FollowWritesAsked(position: Position, f: Filter, script: seq<Step>, view: View, p: Progress)
    requires Growing(script) && Begins(position, f, script, view) && Delivered(f, view, p)
    ensures WritesAsked(position, f, script, view, p)
  {
    var followed := Matching(f, view.store.log, view.start, Some(p.cursor));
    MatchingGives(f, view.store.log, view.start, p.cursor);
    if position.Tail? { NewestAreGiven(f, script[0].reply.store, position.limit); }
    assert p.written == view.initial + followed;
  }

  /** The whole command: the initial read of a position, then the follow. */
  method FollowLogs(position: Position, f: Filter, noReconnect: bool, script: seq<Step>)
    returns (end: FollowEnd, started: bool, first: nat, used: nat, opening: Progress, p: Progress, heads: seq<Head>,
      ghost view: View)
    requires Growing(script) && (position.Tail? ==> position.limit >= 1)
    ensures started ==> Opened(position, f, script, first, opening)
    ensures started ==> Followed(f, noReconnect, script, first, opening, used, p, heads, end)
    ensures started ==> Begins(position, f, script, view) && Delivered(f, view, p)
    ensures started ==> WritesAsked(position, f, script, view, p)
    ensures !started ==> NotOpened(position, f, script, first, end.code, p.written) && end.reported.None?
  {
    var r, written;
    r, first, written, view := FollowInitial(position, f, script);
    if r.Aborted? {
      p := Progress(0, None, written);
      return FollowEnd(r.code, None), false, first, 0, p, p, [], view;
    }
    started, opening := true, r.progress;
    end, used, p, heads, view := FollowFrom(position, f, noReconnect, script, first, opening, view);
    FollowWritesAsked(position, f, script, view, p);
  }

  /** A run counts at most nine interruptions, none of them without reconnecting,
      and at most one per turn. */
  lemma {:induction false} InterruptionsCount(f: Filter, noReconnect: bool, script: seq<Step>, heads: seq<Head>)
    requires Turns(f, noReconnect, script, heads) && heads[0].interruptions == 0
    ensures heads[|heads| - 1].interruptions < 10 && heads[|heads| - 1].interruptions < |heads|
    ensures noReconnect ==> heads[|heads| - 1].interruptions == 0
  {
    if |heads| > 1 { InterruptionsCount(f, noReconnect, script, heads[..|heads| - 1]); }
  }

  /** What a failed read leads to, by its code: one of four losses of the Host is
      survived until the tenth, unless reconnecting is turned off; anything else
      ends the follow at once, another Host as a changed identity. */
  lemma {:induction false} LossDecides(f: Filter, noReconnect: bool, script: seq<Step>, h: Head, g: Head, used: nat, end: FollowEnd)
    requires h.at < |script| && ReadAt(f, script, h).Failed?
    ensures var code := ReadAt(f, script, h).code;
      if code in {HostUnreachable, HostDaemonUnreachable, DirectDaemonUnreachable, SshBootstrapUnavailable} then
        if noReconnect || h.interruptions >= 9 then
          && !TurnsTo(f, noReconnect, script, h, g)
          && (TurnEnds(f, noReconnect, script, h, used, end) <==>
              used == h.at + 1 && end == FollowEnd(if noReconnect then code else ReconnectExhausted, Some(h.p.Report())))
        else
          TurnEnds(f, noReconnect, script, h, used, end) ==>
            h.at < used <= |script| && Justified(script, h.at + 1, used, script[h.at].clock, f, h.p.cursor, end.code)
      else
        && !TurnsTo(f, noReconnect, script, h, g)
        && (TurnEnds(f, noReconnect, script, h, used, end) <==>
            used == h.at + 1 && end == FollowEnd(if code == HostIdentityMismatch then IdentityChanged else code, None))
  {
  }

  /** One turn writes at most 200 entries, and fewer only when it reaches the end of the log. */
  lemma {:induction false} TurnsWritePages(f: Filter, noReconnect: bool, script: seq<Step>, h: Head, g: Head)
    requires TurnsTo(f, noReconnect, script, h, g) && script[g.at - 1].reply.Serve?
    ensures h.p.written <= g.p.written && |g.p.written| <= |h.p.written| + 200
    ensures |g.p.written| < |h.p.written| + 200 ==> g.p.cursor == HighWater(script[g.at - 1].reply.store)
  {
  }

  /** The same of the pages of the initial read, which hold up to 10000 entries. */
  lemma {:induction false} InitialPages(f: Filter, script: seq<Step>, k: nat)
    requires k < |script| && PageAt(f, script, k).Got?
    ensures |PageAt(f, script, k).entries| <= 10_000
    ensures |PageAt(f, script, k).entries| < 10_000 ==>
      script[k].reply.Serve? && PageAt(f, script, k).next == HighWater(script[k].reply.store)
  {
  }
}
