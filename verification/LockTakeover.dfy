/**
What a contender achieves when nobody interferes: it becomes the owner of a lock
root whose other claims can all be taken, leaves at the first that cannot, and
gives back a claim that its owner renewed in the meantime.
*/
module LockTakeover {
  import opened Options
  import opened LockEvidence
  import opened LockProtocol

  /** The state after these steps, if all of them are possible. */
  function After(s: System, labels: seq<Label>): Option<System>
    decreases |labels|
  {
    if labels == [] then Some(s) else
    match Next(s, labels[0])
    case None => None
    case Some(t) => After(t, labels[1..])
  }

  lemma {:induction false} AfterBoth(s: System, a: seq<Label>, b: seq<Label>)
    requires After(s, a).Some?
    ensures After(s, a + b) == After(After(s, a).value, b)
    decreases |a|
  {
    if a == [] {
      assert a + b == b;
    } else {
      assert (a + b)[0] == a[0] && (a + b)[1..] == a[1..] + b;
      AfterBoth(Next(s, a[0]).value, a[1..], b);
    }
  }

  lemma {:induction false} AfterOne(s: System, l: Label)
    ensures After(s, [l]) == Next(s, l)
  {
    assert [l][1..] == [];
  }

  /** A contender that may begin to scan, and what else is in the root. */
  predicate Begins(s: System, p: nat) {
    p in s.procs && s.procs[p].stage == Published && SameOwner(s, p) && !s.foreign && p !in s.quarantine
  }

  /** A contender in the middle of its scan, with these claims left to look at. */
  predicate Scans(s: System, p: nat, todo: set<Name>) {
    p in s.procs && s.procs[p].stage == Scanning(todo) && !s.foreign && p !in s.quarantine
  }

  /** The steps by which a contender gets one claim out of the way. */
  function Removal(p: nat, n: Name, probes: Probes): seq<Label> {
    [Observe(p, n, probes), Quarantine(p)] + [Recheck(p, probes), Discard(p)]
  }

  /** Only an interrupted restart of the service is kept for the record. */
  predicate Kept(c: Claim) {
    (c.state == MutationStarted || c.state == RecoveryPending) && c.phase == PersistentServiceRestart && KindsOf(c.markers) == {LockEvidence.Started}
  }

  function Removed(s: System, p: nat, n: Name): System
    requires p in s.procs && s.procs[p].stage.Scanning? && n in s.root
  {
    s.(procs := s.procs[p := s.procs[p].(stage := Scanning(s.procs[p].stage.todo - {n}))], root := s.root - {n},
       archive := if Kept(s.root[n]) then s.archive + [s.root[n]] else s.archive)
  }

  lemma {:induction false} AcceptedStaysQuiet(c: Claim, now: int, probes: Probes)
    requires Accepts(c, now, probes)
    ensures SameObservation(c, c) && StillQuiet(c, probes, probes)
  {
  }

  /** What is archived, said of the claim alone. */
  lemma {:induction false} ArchivedIsKept(c: Claim, now: int, probes: Probes)
    requires Accepts(c, now, probes)
    ensures Archived(c, probes) <==> Kept(c)
  {
    AcceptedExactly(c, now, probes);
    if c.state != Live { KindsAreTheBooleans(c); }
  }

  lemma {:induction false} Taken(s: System, p: nat, n: Name, probes: Probes)
    requires p in s.procs && s.procs[p].stage.Scanning? && Scans(s, p, s.procs[p].stage.todo)
    requires n in s.procs[p].stage.todo && n in s.root && Accepts(s.root[n], s.clock, probes)
    ensures var todo := s.procs[p].stage.todo - {n};
      After(s, [Observe(p, n, probes), Quarantine(p)]) ==
        Some(Move(s, p, Holding(todo, n, s.root[n], s.clock, probes)).(root := s.root - {n}, quarantine := s.quarantine[p := s.root[n]]))
  {
    var chosen := ChosenTarget(s, p, n, probes);
    assert Next(s, Observe(p, n, probes)) == Some(chosen);
    AfterOne(chosen, Quarantine(p));
    assert [Observe(p, n, probes), Quarantine(p)][1..] == [Quarantine(p)];
    var todo := s.procs[p].stage.todo - {n};
    assert Quarantined(chosen, p) ==
      Move(s, p, Holding(todo, n, s.root[n], s.clock, probes)).(root := s.root - {n}, quarantine := s.quarantine[p := s.root[n]]);
  }

  lemma {:induction false} Confirmed(s: System, p: nat, todo: set<Name>, n: Name, c: Claim, at: int, probes: Probes)
    requires p in s.procs && s.procs[p].stage == Holding(todo, n, c, at, probes) && p in s.quarantine && s.quarantine[p] == c
    requires Accepts(c, at, probes)
    ensures Next(s, Recheck(p, probes)) == Some(Move(s, p, Cleared(todo, n, c, at, probes, probes)))
  {
    AcceptedStaysQuiet(c, at, probes);
  }

  /** The root without the claim at hand, which is on record if it is to be kept. */
  function Disposed(s: System, p: nat, todo: set<Name>, c: Claim): System
    requires p in s.procs
  {
    Move(s, p, Scanning(todo)).(quarantine := s.quarantine - {p}, archive := if Kept(c) then s.archive + [c] else s.archive)
  }

  lemma {:induction false} Dropped(s: System, p: nat, todo: set<Name>, n: Name, c: Claim, at: int, probes: Probes)
    requires p in s.procs && s.procs[p].stage == Cleared(todo, n, c, at, probes, probes) && p in s.quarantine && s.quarantine[p] == c
    requires Archived(c, probes) <==> Kept(c)
    ensures Next(s, Discard(p)) == Some(Disposed(s, p, todo, c))
  {
  }

  lemma {:induction false} ConfirmedAndDropped(s: System, p: nat, todo: set<Name>, n: Name, c: Claim, at: int, probes: Probes)
    requires p in s.procs && s.procs[p].stage == Holding(todo, n, c, at, probes) && p in s.quarantine && s.quarantine[p] == c
    requires Accepts(c, at, probes)
    ensures After(s, [Recheck(p, probes), Discard(p)]) == Some(Disposed(s, p, todo, c))
  {
    var cleared := Move(s, p, Cleared(todo, n, c, at, probes, probes));
    Confirmed(s, p, todo, n, c, at, probes);
    ArchivedIsKept(c, at, probes);
    Dropped(cleared, p, todo, n, c, at, probes);
    AfterOne(cleared, Discard(p));
    assert [Recheck(p, probes), Discard(p)][1..] == [Discard(p)];
    assert Disposed(cleared, p, todo, c).procs == Disposed(s, p, todo, c).procs;
  }

  /** A claim that can be taken is taken away, and nothing else changes. */
  lemma {:induction false} OneRemoved(s: System, p: nat, n: Name, probes: Probes)
    requires p in s.procs && s.procs[p].stage.Scanning? && Scans(s, p, s.procs[p].stage.todo)
    requires n in s.procs[p].stage.todo && n in s.root && Accepts(s.root[n], s.clock, probes)
    ensures After(s, Removal(p, n, probes)) == Some(Removed(s, p, n))
  {
    var c, todo := s.root[n], s.procs[p].stage.todo - {n};
    var held := Move(s, p, Holding(todo, n, c, s.clock, probes)).(root := s.root - {n}, quarantine := s.quarantine[p := c]);
    Taken(s, p, n, probes);
    AfterBoth(s, [Observe(p, n, probes), Quarantine(p)], [Recheck(p, probes), Discard(p)]);
    ConfirmedAndDropped(held, p, todo, n, c, s.clock, probes);
    assert s.quarantine[p := c] - {p} == s.quarantine;
    assert held.procs[p := held.procs[p].(stage := Scanning(todo))] == s.procs[p := s.procs[p].(stage := Scanning(todo))];
  }

  // -------------------------------------------------------------- whole scans

  function Sweep(p: nat, order: seq<Name>, probes: Name -> Probes): seq<Label> {
    if order == [] then [] else Sweep(p, order[..|order| - 1], probes) + Removal(p, order[|order| - 1], probes(order[|order| - 1]))
  }

  function Names(order: seq<Name>): set<Name> {
    set n | n in order
  }

  /** The claims of these that are kept for the record, in order. */
  function Records(s: System, order: seq<Name>): seq<Claim>
    requires Names(order) <= s.root.Keys
  {
    if order == [] then [] else
    var n := order[|order| - 1];
    assert n in Names(order) && Names(order[..|order| - 1]) <= Names(order);
    Records(s, order[..|order| - 1]) + if Kept(s.root[n]) then [s.root[n]] else []
  }

  /** These claims, each once, are to be looked at, and all of them can be taken. */
  ghost predicate AllTakeable(s: System, todo: set<Name>, order: seq<Name>, probes: Name -> Probes) {
    && (forall i, j :: 0 <= i < j < |order| ==> order[i] != order[j])
    && (forall n :: n in order ==> n in todo && n in s.root && Accepts(s.root[n], s.clock, probes(n)))
  }

  /** After a sweep: the claims are gone and nothing else has changed. */
  ghost predicate SweptOf(s: System, p: nat, todo: set<Name>, order: seq<Name>, t: System)
    requires p in s.procs && Names(order) <= s.root.Keys
  {
    t == s.(procs := s.procs[p := s.procs[p].(stage := Scanning(todo - Names(order)))], root := s.root - Names(order),
            archive := s.archive + Records(s, order))
  }

  lemma {:induction false} NamesMore(order: seq<Name>)
    requires order != []
    ensures Names(order) == Names(order[..|order| - 1]) + {order[|order| - 1]}
  {
    assert order == order[..|order| - 1] + [order[|order| - 1]];
  }

  lemma {:induction false} SweptMore(s: System, p: nat, todo: set<Name>, order: seq<Name>, t: System)
    requires p in s.procs && order != [] && Names(order) <= s.root.Keys
    requires Names(order[..|order| - 1]) <= s.root.Keys && order[|order| - 1] !in order[..|order| - 1]
    requires SweptOf(s, p, todo, order[..|order| - 1], t) && order[|order| - 1] in t.root
    ensures SweptOf(s, p, todo, order, Removed(t, p, order[|order| - 1]))
  {
    var before, n := order[..|order| - 1], order[|order| - 1];
    NamesMore(order);
    assert (todo - Names(before)) - {n} == todo - Names(order);
    assert (s.root - Names(before)) - {n} == s.root - Names(order);
    var more := if Kept(s.root[n]) then [s.root[n]] else [];
    assert s.archive + (Records(s, before) + more) == (s.archive + Records(s, before)) + more;
    assert t.root[n] == s.root[n];
    assert t.archive + [] == t.archive;
    var u := Removed(t, p, n);
    assert u.archive == t.archive + more;
    assert u.procs == s.procs[p := s.procs[p].(stage := Scanning(todo - Names(order)))];
  }

  lemma {:induction false} SweepRemoves(s: System, p: nat, todo: set<Name>, order: seq<Name>, probes: Name -> Probes)
    requires Scans(s, p, todo) && AllTakeable(s, todo, order, probes)
    ensures Names(order) <= s.root.Keys
    ensures var t := After(s, Sweep(p, order, probes)); t.Some? && SweptOf(s, p, todo, order, t.value)
  {
    if order == [] {
      assert Names(order) == {};
      assert todo - {} == todo && s.root - {} == s.root && s.archive + [] == s.archive;
      assert s.procs[p := s.procs[p].(stage := Scanning(todo))] == s.procs;
    } else {
      var before, n := order[..|order| - 1], order[|order| - 1];
      NamesMore(order);
      SweepRemoves(s, p, todo, before, probes);
      var t := After(s, Sweep(p, before, probes)).value;
      assert n in order && n !in Names(before);
      OneRemoved(t, p, n, probes(n));
      AfterBoth(s, Sweep(p, before, probes), Removal(p, n, probes(n)));
      SweptMore(s, p, todo, order, t);
    }
  }

  /** All other claims of the root, each once. */
  ghost predicate Others(s: System, p: nat, order: seq<Name>)
    requires p in s.procs
  {
    Names(order) == s.root.Keys - {s.procs[p].name} && forall i, j :: 0 <= i < j < |order| ==> order[i] != order[j]
  }

  lemma {:induction false} LooksAround(s: System, p: nat)
    requires Begins(s, p)
    ensures After(s, [Glob(p)]) == Some(Move(s, p, Scanning(s.root.Keys - {s.procs[p].name})))
  {
    AfterOne(s, Glob(p));
  }

  lemma {:induction false} BecomesOwner(s: System, p: nat)
    requires Scans(s, p, {}) && SameOwner(s, p) && s.root.Keys == {s.procs[p].name}
    ensures var me := s.procs[p]; After(s, [FinalScan(p), Ready(p)]) == Some(
      s.(procs := s.procs[p := me.(stage := Owning)], passed := s.passed + {me.identity}, last := me.identity, ready := s.ready + {me.identity}))
  {
    var passed := PassedScan(s, p);
    assert Next(s, FinalScan(p)) == Some(passed);
    AfterOne(passed, Ready(p));
    assert [FinalScan(p), Ready(p)][1..] == [Ready(p)];
    var me := s.procs[p];
    assert PrintedReady(passed, p).procs == s.procs[p := me.(stage := Owning)];
  }

  /** The root with nothing left in it but the contender's own claim. */
  function Alone(s: System, p: nat, order: seq<Name>): System
    requires Begins(s, p) && Names(order) <= s.root.Keys
  {
    var me := s.procs[p];
    s.(procs := s.procs[p := me.(stage := Scanning({}))], root := map[me.name := s.root[me.name]],
       archive := s.archive + Records(s, order))
  }

  lemma {:induction false} SweepLeavesAlone(s: System, p: nat, order: seq<Name>, probes: Name -> Probes)
    requires Begins(s, p) && Others(s, p, order)
    requires forall n :: n in order ==> n in s.root && Accepts(s.root[n], s.clock, probes(n))
    ensures Names(order) <= s.root.Keys
    ensures After(s, [Glob(p)] + Sweep(p, order, probes)) == Some(Alone(s, p, order))
  {
    var me, todo := s.procs[p], s.root.Keys - {s.procs[p].name};
    var t := Move(s, p, Scanning(todo));
    LooksAround(s, p);
    assert forall n :: n in order ==> n in Names(order);
    SweepRemoves(t, p, todo, order, probes);
    var u := After(t, Sweep(p, order, probes)).value;
    AfterBoth(s, [Glob(p)], Sweep(p, order, probes));
    assert todo - Names(order) == {};
    assert u.root == map[me.name := s.root[me.name]];
    SameRecords(s, t, order);
    assert u.procs == s.procs[p := me.(stage := Scanning({}))];
  }

  /** A contender that finds only claims that can be taken, in whatever order, becomes
      the owner: its own claim is the only one left in the root, the interrupted
      restarts are on record, and no other process is affected. */
  lemma {:induction false} TakeoverSucceeds(s: System, p: nat, order: seq<Name>, probes: Name -> Probes)
    requires Begins(s, p) && Others(s, p, order)
    requires forall n :: n in order ==> n in s.root && Accepts(s.root[n], s.clock, probes(n))
    ensures Names(order) <= s.root.Keys
    ensures var me := s.procs[p];
      After(s, ([Glob(p)] + Sweep(p, order, probes)) + [FinalScan(p), Ready(p)]) == Some(
        s.(procs := s.procs[p := me.(stage := Owning)], root := map[me.name := s.root[me.name]],
           archive := s.archive + Records(s, order),
           passed := s.passed + {me.identity}, last := me.identity, ready := s.ready + {me.identity}))
  {
    SweepLeavesAlone(s, p, order, probes);
    var u := Alone(s, p, order);
    AfterBoth(s, [Glob(p)] + Sweep(p, order, probes), [FinalScan(p), Ready(p)]);
    BecomesOwner(u, p);
    assert u.procs[p := u.procs[p].(stage := Owning)] == s.procs[p := s.procs[p].(stage := Owning)];
  }

  lemma {:induction false} SameRecords(s: System, t: System, order: seq<Name>)
    requires s.root == t.root && Names(order) <= s.root.Keys
    ensures Records(s, order) == Records(t, order)
  {
    if order != [] {
      NamesMore(order);
      SameRecords(s, t, order[..|order| - 1]);
    }
  }

  /** At the first claim that cannot be taken the contender leaves: its own claim and
      those taken before are gone, and every other claim stays as it is. */
  lemma {:induction false} BusyContenderLeaves(s: System, p: nat, todo: set<Name>, order: seq<Name>, busy: Name, probes: Name -> Probes)
    requires Scans(s, p, todo) && SameOwner(s, p) && AllTakeable(s, todo, order, probes) && s.procs[p].name !in todo
    requires busy in todo && busy !in order && busy in s.root && !Accepts(s.root[busy], s.clock, probes(busy))
    ensures Names(order) <= s.root.Keys
    ensures var me := s.procs[p];
      After(s, Sweep(p, order, probes) + [Observe(p, busy, probes(busy)), Leave(p)]) == Some(
        s.(procs := s.procs[p := me.(stage := Gone)], root := s.root - Names(order) - {me.name}, archive := s.archive + Records(s, order)))
  {
    var me := s.procs[p];
    SweepRemoves(s, p, todo, order, probes);
    var t := After(s, Sweep(p, order, probes)).value;
    AfterBoth(s, Sweep(p, order, probes), [Observe(p, busy, probes(busy)), Leave(p)]);
    assert busy !in Names(order) && me.name !in Names(order);
    LeavesAt(t, p, busy, probes(busy));
    assert t.procs[p := t.procs[p].(stage := Gone)] == s.procs[p := me.(stage := Gone)];
  }

  lemma {:induction false} LeavesAt(s: System, p: nat, busy: Name, probes: Probes)
    requires p in s.procs && s.procs[p].stage.Scanning? && SameOwner(s, p)
    requires busy in s.procs[p].stage.todo && busy in s.root && !Accepts(s.root[busy], s.clock, probes)
    ensures After(s, [Observe(p, busy, probes), Leave(p)]) ==
      Some(s.(procs := s.procs[p := s.procs[p].(stage := Gone)], root := s.root - {s.procs[p].name}))
  {
    var leaving := Move(s, p, Leaving);
    assert Next(s, Observe(p, busy, probes)) == Some(leaving);
    AfterOne(leaving, Leave(p));
    assert [Observe(p, busy, probes), Leave(p)][1..] == [Leave(p)];
    assert Next(leaving, Leave(p)).value.procs == s.procs[p := s.procs[p].(stage := Gone)];
  }

  /** A claim that its owner renewed after it was looked at is given back as the owner
      left it, and the contender leaves. */
  lemma {:induction false} RenewedClaimIsGivenBack(s: System, p: nat, n: Name, renewed: Claim, before: Probes, after: Probes)
    requires p in s.procs && s.procs[p].stage.Scanning? && Scans(s, p, s.procs[p].stage.todo) && SameOwner(s, p)
    requires n in s.procs[p].stage.todo && n in s.root && n != s.procs[p].name && Accepts(s.root[n], s.clock, before)
    requires ContentStep(s.root[n], renewed) && renewed.heartbeat != s.root[n].heartbeat
    ensures var me := s.procs[p];
      After(s, [Observe(p, n, before), Write(n, renewed)] + ([Quarantine(p), Recheck(p, after)] + [Restore(p), Leave(p)])) == Some(
        s.(procs := s.procs[p := me.(stage := Gone)], root := s.root[n := renewed] - {me.name}))
  {
    var me, c, todo := s.procs[p], s.root[n], s.procs[p].stage.todo - {n};
    var written := ChosenTarget(s, p, n, before).(root := s.root[n := renewed]);
    WrittenOver(s, p, n, renewed, before);
    var held := Move(written, p, Restoring(n)).(root := written.root - {n}, quarantine := s.quarantine[p := renewed]);
    FoundChanged(written, p, todo, n, c, before, after);
    AfterBoth(s, [Observe(p, n, before), Write(n, renewed)], [Quarantine(p), Recheck(p, after)] + [Restore(p), Leave(p)]);
    AfterBoth(written, [Quarantine(p), Recheck(p, after)], [Restore(p), Leave(p)]);
    GivesBack(held, p, n, renewed);
    assert (s.root[n := renewed] - {n})[n := renewed] == s.root[n := renewed];
    assert s.quarantine[p := renewed] - {p} == s.quarantine;
    assert held.procs[p := held.procs[p].(stage := Gone)] == s.procs[p := me.(stage := Gone)];
  }

  lemma {:induction false} WrittenOver(s: System, p: nat, n: Name, renewed: Claim, before: Probes)
    requires p in s.procs && s.procs[p].stage.Scanning? && !s.foreign && n in s.procs[p].stage.todo && n in s.root
    requires Accepts(s.root[n], s.clock, before) && ContentStep(s.root[n], renewed)
    ensures After(s, [Observe(p, n, before), Write(n, renewed)]) == Some(ChosenTarget(s, p, n, before).(root := s.root[n := renewed]))
  {
    var chosen := ChosenTarget(s, p, n, before);
    assert Next(s, Observe(p, n, before)) == Some(chosen);
    AfterOne(chosen, Write(n, renewed));
    assert [Observe(p, n, before), Write(n, renewed)][1..] == [Write(n, renewed)];
  }

  lemma {:induction false} FoundChanged(s: System, p: nat, todo: set<Name>, n: Name, seen: Claim, before: Probes, after: Probes)
    requires p in s.procs && s.procs[p].stage == Chosen(todo, n, seen, s.clock, before) && n in s.root
    requires s.root[n].heartbeat != seen.heartbeat
    ensures After(s, [Quarantine(p), Recheck(p, after)]) ==
      Some(Move(s, p, Restoring(n)).(root := s.root - {n}, quarantine := s.quarantine[p := s.root[n]]))
  {
    var held := Quarantined(s, p);
    assert Next(s, Quarantine(p)) == Some(held);
    AfterOne(held, Recheck(p, after));
    assert [Quarantine(p), Recheck(p, after)][1..] == [Recheck(p, after)];
    assert held.procs[p := held.procs[p].(stage := Restoring(n))] == s.procs[p := s.procs[p].(stage := Restoring(n))];
  }

  lemma {:induction false} GivesBack(s: System, p: nat, n: Name, c: Claim)
    requires p in s.procs && s.procs[p].stage == Restoring(n) && SameOwner(s, p) && n !in s.root
    requires p in s.quarantine && s.quarantine[p] == c && n != s.procs[p].name
    ensures After(s, [Restore(p), Leave(p)]) == Some(
      s.(procs := s.procs[p := s.procs[p].(stage := Gone)], root := s.root[n := c] - {s.procs[p].name}, quarantine := s.quarantine - {p}))
  {
    var restored := Restored(s, p);
    assert Next(s, Restore(p)) == Some(restored);
    AfterOne(restored, Leave(p));
    assert [Restore(p), Leave(p)][1..] == [Leave(p)];
    assert restored.procs[p := restored.procs[p].(stage := Gone)] == s.procs[p := s.procs[p].(stage := Gone)];
  }
}
