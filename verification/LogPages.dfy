/**
What a page promises its reader, proved of the store: a forward page is the
next stretch of the log, and stretches fit together while the log grows.
*/
module LogPages {
  import opened Options
  import opened LogStore

  lemma {:induction false} MatchingMembers(f: Filter, rows: seq<Entry>, after: nat, through: Option<nat>)
    ensures forall e :: e in Matching(f, rows, after, through) <==>
      e in rows && Within(e.cursor, after, through) && Selects(f, e)
  {
    if rows != [] {
      MatchingMembers(f, rows[1..], after, through);
      assert rows == [rows[0]] + rows[1..];
    }
  }

  lemma {:induction false} MatchingOrdered(f: Filter, rows: seq<Entry>, after: nat, through: Option<nat>)
    requires Ordered(rows)
    ensures Ordered(Matching(f, rows, after, through))
  {
    if rows != [] {
      Rest(rows);
      MatchingOrdered(f, rows[1..], after, through);
      MatchingMembers(f, rows[1..], after, through);
    }
  }

  lemma {:induction false} NothingWithin(f: Filter, rows: seq<Entry>, after: nat, through: Option<nat>)
    requires forall e :: e in rows ==> !(Within(e.cursor, after, through) && Selects(f, e))
    ensures Matching(f, rows, after, through) == []
  {
    if rows != [] {
      assert rows == [rows[0]] + rows[1..];
      NothingWithin(f, rows[1..], after, through);
    }
  }

  /** Reading the stored rows is reading the whole log from where it was pruned. */
  lemma {:induction false} MatchingAbove(f: Filter, log: seq<Entry>, pruned: nat, after: nat, through: Option<nat>)
    ensures Matching(f, Above(log, pruned), after, through) ==
      Matching(f, log, if after > pruned then after else pruned, through)
  {
    if log != [] {
      MatchingAbove(f, log[1..], pruned, after, through);
      if log[0].cursor > pruned {
        assert ([log[0]] + Above(log[1..], pruned))[1..] == Above(log[1..], pruned);
      } else {
        assert [] + Above(log[1..], pruned) == Above(log[1..], pruned);
      }
    }
  }

  lemma {:induction false} MatchingUpToLast(f: Filter, rows: seq<Entry>, after: nat, through: nat)
    requires Ordered(rows) && LastCursor(rows) <= through
    ensures Matching(f, rows, after, None) == Matching(f, rows, after, Some(through))
  {
    if rows != [] {
      Rest(rows);
      MatchingUpToLast(f, rows[1..], after, through);
      LastIsHighest(rows);
    }
  }

  ghost predicate TakesUpTo(f: Filter, rows: seq<Entry>, after: nat, k: nat)
    requires 1 <= k <= |Matching(f, rows, after, None)|
  {
    var found := Matching(f, rows, after, None);
    found[k - 1].cursor > after && found[..k] == Matching(f, rows, after, Some(found[k - 1].cursor))
  }

  lemma {:induction false} NothingBefore(f: Filter, rows: seq<Entry>, after: nat)
    requires rows != [] && Ordered(rows)
    ensures Matching(f, rows[1..], after, Some(rows[0].cursor)) == []
  {
    Rest(rows);
    NothingWithin(f, rows[1..], after, Some(rows[0].cursor));
  }

  lemma {:induction false} LaterMatch(f: Filter, rows: seq<Entry>, after: nat, i: nat)
    requires rows != [] && Ordered(rows) && i < |Matching(f, rows[1..], after, None)|
    ensures Matching(f, rows[1..], after, None)[i].cursor > rows[0].cursor
  {
    Rest(rows);
    MatchingMembers(f, rows[1..], after, None);
    assert Matching(f, rows[1..], after, None)[i] in Matching(f, rows[1..], after, None);
  }

  lemma {:induction false} ConsPrefix<T>(x: T, s: seq<T>, k: nat)
    requires 1 <= k <= |s| + 1
    ensures ([x] + s)[..k] == [x] + s[..k - 1]
  {
  }

  /** A row that matches is the first one taken. */
  lemma {:induction false} TakeMatched(f: Filter, rows: seq<Entry>, after: nat, k: nat)
    requires rows != [] && Ordered(rows) && Within(rows[0].cursor, after, None) && Selects(f, rows[0])
    requires 1 <= k <= |Matching(f, rows, after, None)|
    requires k > 1 ==> TakesUpTo(f, rows[1..], after, k - 1)
    ensures TakesUpTo(f, rows, after, k)
  {
    var found, rest := Matching(f, rows, after, None), Matching(f, rows[1..], after, None);
    assert found == [rows[0]] + rest;
    if k == 1 {
      NothingBefore(f, rows, after);
    } else {
      LaterMatch(f, rows, after, k - 2);
      ConsPrefix(rows[0], rest, k);
    }
  }

  /** The first k matches are the matches up to the k-th one. */
  lemma {:induction false} MatchingTake(f: Filter, rows: seq<Entry>, after: nat, k: nat)
    requires Ordered(rows) && 1 <= k <= |Matching(f, rows, after, None)|
    ensures TakesUpTo(f, rows, after, k)
  {
    Rest(rows);
    if Within(rows[0].cursor, after, None) && Selects(f, rows[0]) {
      if k > 1 { MatchingTake(f, rows[1..], after, k - 1); }
      TakeMatched(f, rows, after, k);
    } else {
      assert Matching(f, rows, after, None) == Matching(f, rows[1..], after, None);
      MatchingTake(f, rows[1..], after, k);
    }
  }

  /** Neighbouring stretches add up. */
  lemma {:induction false} MatchingSplit(f: Filter, rows: seq<Entry>, a: nat, b: nat, c: nat)
    requires Ordered(rows) && a <= b <= c
    ensures Matching(f, rows, a, Some(b)) + Matching(f, rows, b, Some(c)) == Matching(f, rows, a, Some(c))
  {
    if rows != [] {
      Rest(rows);
      MatchingSplit(f, rows[1..], a, b, c);
      if rows[0].cursor > b {
        NothingWithin(f, rows[1..], a, Some(b));
      }
    }
  }

  /** What was appended later lies beyond an old stretch. */
  lemma {:induction false} MatchingGrows(f: Filter, log: seq<Entry>, more: seq<Entry>, a: nat, b: nat)
    requires forall e :: e in more ==> e.cursor > b
    ensures Matching(f, log + more, a, Some(b)) == Matching(f, log, a, Some(b))
  {
    if log == [] {
      assert log + more == more;
      NothingWithin(f, more, a, Some(b));
    } else {
      MatchingGrows(f, log[1..], more, a, b);
      assert (log + more)[1..] == log[1..] + more;
    }
  }

  /** What was appended after a valid state lies beyond its last cursor. */
  lemma {:induction false} AppendedBeyond(s: Store, t: Store, i: nat)
    requires Evolves(s, t) && |s.log| <= i < |t.log|
    ensures t.log[i].cursor > LastCursor(s.log)
  {
    if s.log != [] { assert t.log[|s.log| - 1] == s.log[|s.log| - 1]; }
  }

  lemma {:induction false} EndNeverRecedes(s: Store, t: Store)
    requires Evolves(s, t)
    ensures LastCursor(s.log) <= LastCursor(t.log)
  {
    if |s.log| < |t.log| { AppendedBeyond(s, t, |t.log| - 1); } else { assert s.log == t.log; }
  }

  lemma {:induction false} StretchIsStable(f: Filter, s: Store, t: Store, a: nat, b: nat)
    requires Evolves(s, t) && b <= LastCursor(s.log)
    ensures Matching(f, t.log, a, Some(b)) == Matching(f, s.log, a, Some(b))
    ensures b <= LastCursor(t.log)
  {
    var more := t.log[|s.log|..];
    assert t.log == s.log + more;
    EndNeverRecedes(s, t);
    AllBeyond(s, t, b, more);
    MatchingGrows(f, s.log, more, a, b);
  }

  lemma {:induction false} AllBeyond(s: Store, t: Store, b: nat, more: seq<Entry>)
    requires Evolves(s, t) && b <= LastCursor(s.log) && more == t.log[|s.log|..]
    ensures forall e :: e in more ==> e.cursor > b
  {
    forall i | 0 <= i < |more| ensures more[i].cursor > b { AppendedBeyond(s, t, |s.log| + i); }
  }

  /** A page that was served covers exactly the matches from its start through
      its next cursor, whatever was pruned or filtered out in between. */
  lemma {:induction false} ForwardPageCovers(s: Store, f: Filter, cursor: Option<nat>, limit: nat)
    requires Valid(s) && limit >= 1 && ForwardPage(s, f, cursor, limit).Page?
    ensures var page := ForwardPage(s, f, cursor, limit); var start := if cursor.Some? then cursor.value else s.expiredThrough;
      && s.expiredThrough <= start <= page.next <= LastCursor(s.log)
      && page.entries == Matching(f, s.log, start, Some(page.next))
      && (page.truncated ==> |page.entries| == limit && page.entries[limit - 1].cursor == page.next)
      && (!page.truncated ==> page.next == LastCursor(s.log))
  {
    var page := ForwardPage(s, f, cursor, limit);
    var after := if cursor.Some? then cursor.value else 0;
    var start := if cursor.Some? then cursor.value else s.expiredThrough;
    HighWaterIsLast(s);
    MatchingAbove(f, s.log, s.expiredThrough, after, None);
    var found := Matching(f, s.log, start, None);
    if page.truncated {
      MatchingTake(f, s.log, start, limit);
      MatchingMembers(f, s.log, start, None);
      assert found[limit - 1] in s.log by { assert found[limit - 1] in found; }
      LastIsHighest(s.log);
    } else {
      MatchingUpToLast(f, s.log, start, LastCursor(s.log));
    }
  }

  /** Exactly when a forward page is refused. */
  lemma {:induction false} ForwardPageRefusals(s: Store, f: Filter, cursor: Option<nat>, limit: nat)
    requires Valid(s) && limit >= 1
    ensures ForwardPage(s, f, cursor, limit).CursorExpired? <==> cursor.Some? && cursor.value < s.expiredThrough
    ensures ForwardPage(s, f, cursor, limit).CursorAhead? <==> cursor.Some? && cursor.value > LastCursor(s.log)
  {
    HighWaterIsLast(s);
  }

  function LastOf<T>(s: seq<T>, n: nat): seq<T> {
    if |s| <= n then s else s[|s| - n..]
  }

  /** Taking the newest n in reverse and reversing again leaves the last n. */
  lemma {:induction false} NewestFirst<T>(s: seq<T>, n: nat)
    ensures Reversed(if |Reversed(s)| > n then Reversed(s)[..n] else Reversed(s)) == LastOf(s, n)
  {
  }

  /** A tail page holds the newest matches, and its next cursor is the end of the log. */
  lemma {:induction false} TailPageCovers(s: Store, f: Filter, limit: nat)
    requires Valid(s) && limit >= 1
    ensures var page := TailPage(s, f, limit);
      && page.Page? && page.next == LastCursor(s.log)
      && page.entries == LastOf(Matching(f, s.log, s.expiredThrough, Some(page.next)), limit)
  {
    HighWaterIsLast(s);
    MatchingAbove(f, s.log, s.expiredThrough, 0, None);
    MatchingUpToLast(f, s.log, s.expiredThrough, LastCursor(s.log));
    var found := Matching(f, Stored(s), 0, None);
    NewestFirst(found, limit);
  }

  // ------------------------------------------------------- what a reader asked for

  /** What a reader asked for, said of the fields of one entry. */
  predicate Asked(f: Filter, e: Entry) {
    && (f.session.None? || f.session == e.session)
    && (f.since.None? || f.since.value <= e.recordedAt)
    && e.source in f.sources
    && f.minimumSeverity <= e.severity
    && (f.bindings.None? || e.binding.None? || e.binding.value in f.bindings.value)
  }

  /** These are the entries of the log that were asked for, above one cursor and
      through another, each once and in the order of the log. */
  ghost predicate Gives(f: Filter, log: seq<Entry>, after: nat, through: nat, entries: seq<Entry>) {
    && (forall e :: e in entries <==> e in log && after < e.cursor <= through && Asked(f, e))
    && Ordered(entries)
  }

  lemma {:induction false} MatchingGives(f: Filter, log: seq<Entry>, after: nat, through: nat)
    requires Ordered(log)
    ensures Gives(f, log, after, through, Matching(f, log, after, Some(through)))
  {
    MatchingMembers(f, log, after, Some(through));
    MatchingOrdered(f, log, after, Some(through));
  }

  /** A forward page gives every entry of its stretch that has the asked session, an
      asked source, at least the asked severity, a time not before the asked one
      and an allowed binding or none; and it gives no other. */
  lemma {:induction false} ForwardPageGives(s: Store, f: Filter, cursor: Option<nat>, limit: nat)
    requires Valid(s) && limit >= 1 && ForwardPage(s, f, cursor, limit).Page?
    ensures var page := ForwardPage(s, f, cursor, limit); var start := if cursor.Some? then cursor.value else s.expiredThrough;
      && Ordered(page.entries)
      && forall e :: e in page.entries <==>
        && e in s.log && start < e.cursor <= page.next
        && (f.session.None? || f.session == e.session)
        && (f.since.None? || f.since.value <= e.recordedAt)
        && e.source in f.sources && f.minimumSeverity <= e.severity
        && (f.bindings.None? || e.binding.None? || e.binding.value in f.bindings.value)
  {
    var page := ForwardPage(s, f, cursor, limit);
    ForwardPageCovers(s, f, cursor, limit);
    MatchingGives(f, s.log, if cursor.Some? then cursor.value else s.expiredThrough, page.next);
  }

  lemma {:induction false} LastOfNewest(s: seq<Entry>, n: nat)
    requires Ordered(s)
    ensures Ordered(LastOf(s, n)) && |LastOf(s, n)| <= n
    ensures forall e :: e in LastOf(s, n) ==> e in s
    ensures forall e :: e in s && e !in LastOf(s, n) ==>
      |LastOf(s, n)| == n && forall d :: d in LastOf(s, n) ==> e.cursor < d.cursor
  {
    if |s| > n {
      var cut := |s| - n;
      assert s == s[..cut] + s[cut..];
    }
  }

  /** These are the newest of the stored entries that were asked for. */
  ghost predicate GivesNewest(f: Filter, s: Store, limit: nat, entries: seq<Entry>) {
    && Ordered(entries) && |entries| <= limit
    && (forall e :: e in entries ==> e in s.log && s.expiredThrough < e.cursor && Asked(f, e))
    && (forall e :: e in s.log && s.expiredThrough < e.cursor && Asked(f, e) && e !in entries ==>
        |entries| == limit && forall given :: given in entries ==> e.cursor < given.cursor)
  }

  lemma {:induction false} NewestAreGiven(f: Filter, s: Store, limit: nat)
    requires Valid(s)
    ensures GivesNewest(f, s, limit, LastOf(Matching(f, s.log, s.expiredThrough, Some(LastCursor(s.log))), limit))
  {
    MatchingGives(f, s.log, s.expiredThrough, LastCursor(s.log));
    LastIsHighest(s.log);
    LastOfNewest(Matching(f, s.log, s.expiredThrough, Some(LastCursor(s.log))), limit);
  }

  /** A tail page gives asked entries only, the newest of them: what was asked for,
      is stored and is not given is older than all that is, of which there are as
      many as the limit. */
  lemma {:induction false} TailPageGives(s: Store, f: Filter, limit: nat)
    requires Valid(s) && limit >= 1
    ensures var page := TailPage(s, f, limit);
      page.Page? && GivesNewest(f, s, limit, page.entries)
  {
    TailPageCovers(s, f, limit);
    NewestAreGiven(f, s, limit);
  }

  /** g asks for no more than f: a later time, fewer sources, a higher severity,
      fewer bindings, or one session instead of all. */
  predicate Narrower(f: Filter, g: Filter) {
    && (f.session.Some? ==> g.session == f.session)
    && (f.since.Some? ==> g.since.Some? && f.since.value <= g.since.value)
    && g.sources <= f.sources
    && f.minimumSeverity <= g.minimumSeverity
    && (f.bindings.Some? ==> g.bindings.Some? && g.bindings.value <= f.bindings.value)
  }

  /** Asking for less never adds an entry to what a page covers. */
  lemma {:induction false} NarrowingNeverAdds(s: Store, f: Filter, g: Filter, cursor: Option<nat>, limit: nat)
    requires Valid(s) && limit >= 1 && Narrower(f, g) && ForwardPage(s, f, cursor, limit).Page?
    ensures ForwardPage(s, g, cursor, limit).Page?
    ensures var wide, narrow := ForwardPage(s, f, cursor, limit), ForwardPage(s, g, cursor, limit);
      forall e :: e in narrow.entries && e.cursor <= wide.next ==> e in wide.entries
  {
    ForwardPageRefusals(s, f, cursor, limit);
    ForwardPageRefusals(s, g, cursor, limit);
    ForwardPageGives(s, f, cursor, limit);
    ForwardPageGives(s, g, cursor, limit);
  }

  /** A page is truncated exactly when something that was asked for is left beyond it. */
  lemma {:induction false} TruncatedMeansMore(s: Store, f: Filter, cursor: Option<nat>, limit: nat)
    requires Valid(s) && limit >= 1 && ForwardPage(s, f, cursor, limit).Page?
    ensures var page := ForwardPage(s, f, cursor, limit);
      page.truncated <==> exists e :: e in s.log && e.cursor > page.next && Asked(f, e)
  {
    if ForwardPage(s, f, cursor, limit).truncated {
      MatchingAbove(f, s.log, s.expiredThrough, if cursor.Some? then cursor.value else 0, None);
      MoreFound(f, s.log, if cursor.Some? then cursor.value else s.expiredThrough, limit);
    } else {
      ForwardPageCovers(s, f, cursor, limit);
      LastIsHighest(s.log);
    }
  }

  lemma {:induction false} MoreFound(f: Filter, log: seq<Entry>, after: nat, k: nat)
    requires Ordered(log) && 1 <= k < |Matching(f, log, after, None)|
    ensures exists e :: e in log && e.cursor > Matching(f, log, after, None)[k - 1].cursor && Asked(f, e)
  {
    var found := Matching(f, log, after, None);
    MatchingMembers(f, log, after, None);
    MatchingOrdered(f, log, after, None);
    assert found[k] in found;
  }

  /** A tail page is truncated exactly when it left out something stored that was asked for. */
  lemma {:induction false} TruncatedTailMeansMore(s: Store, f: Filter, limit: nat)
    requires Valid(s) && limit >= 1
    ensures var page := TailPage(s, f, limit);
      page.truncated <==> exists e :: e in s.log && s.expiredThrough < e.cursor && Asked(f, e) && e !in page.entries
  {
    var found := Matching(f, s.log, s.expiredThrough, Some(LastCursor(s.log)));
    TailPageCovers(s, f, limit);
    MatchingAbove(f, s.log, s.expiredThrough, 0, None);
    MatchingUpToLast(f, s.log, s.expiredThrough, LastCursor(s.log));
    MatchingGives(f, s.log, s.expiredThrough, LastCursor(s.log));
    LastIsHighest(s.log);
    if |found| > limit {
      assert found[0] in found;
      assert found[0] !in LastOf(found, limit);
    }
  }

  /** Where a refused read goes on: below the earliest row that is stored, if any. */
  lemma {:induction false} ExpiryBound(s: Store)
    requires Valid(s)
    ensures s.expiredThrough <= HighWater(s)
    ensures Stored(s) != [] ==> s.expiredThrough < Stored(s)[0].cursor
    ensures forall e :: e in Stored(s) ==> Stored(s)[0].cursor <= e.cursor
  {
    AboveRows(s.log, s.expiredThrough);
    HighWaterIsLast(s);
    if Stored(s) != [] { assert Stored(s)[0] in Stored(s); }
  }

  lemma {:induction false} ExpiryIsTheBeginning(s: Store, f: Filter)
    requires Valid(s)
    ensures Matching(f, Stored(s), s.expiredThrough, None) == Matching(f, Stored(s), 0, None)
  {
    MatchingAbove(f, s.log, s.expiredThrough, 0, None);
    MatchingAbove(f, s.log, s.expiredThrough, s.expiredThrough, None);
  }

  /** A refused cursor names where to go on: the resume cursor is served, and gives
      everything that is stored from the earliest row on. */
  lemma {:induction false} RefusalNamesResumption(s: Store, f: Filter, cursor: Option<nat>, limit: nat)
    requires Valid(s) && limit >= 1 && ForwardPage(s, f, cursor, limit).CursorExpired?
    ensures var refused := ForwardPage(s, f, cursor, limit);
      && ForwardPage(s, f, Some(refused.resume), limit) == ForwardPage(s, f, None, limit)
      && cursor.Some? && cursor.value < refused.resume
      && (refused.earliest.None? <==> Stored(s) == [])
      && (refused.earliest.Some? ==>
          refused.resume < refused.earliest.value && forall e :: e in Stored(s) ==> refused.earliest.value <= e.cursor)
  {
    ExpiryBound(s);
    ExpiryIsTheBeginning(s, f);
  }
}
