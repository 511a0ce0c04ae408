/**
The ordinary course of a tenure: the commands of one phase after the other are
echoed and leave exactly their markers, and what follows an attempt depends on
whether it is over.
*/
module LockCourse {
  import opened Options
  import opened LockEvidence
  import opened LockOwner

  /** What the owner replies to the commands of a run, in order. */
  function Replies(t: Tenure, events: seq<Event>): seq<Outcome> {
    if events == [] then [] else
    var before, event := events[..|events| - 1], events[|events| - 1];
    Replies(t, before) + ReplyTo(Tenured(t, before), event)
  }

  function ReplyTo(t: Tenure, event: Event): seq<Outcome> {
    if event.Command? && !t.exited then [Handle(t.s, event.line, event.done).1] else []
  }

  predicate AllEchoed(replies: seq<Outcome>) {
    forall i :: 0 <= i < |replies| ==> replies[i] == Echoed
  }

  const DIGEST_MISMATCH := 65

  /** The result that an executor leaves beside its started marker, by the exit status of what it ran. */
  function ResultOf(phase: Phase, status: nat): Option<MarkerKind> {
    if status == 0 && (!RequiresCommit(phase) || phase == DaemonStart) then Some(Succeeded)
    else if status == DIGEST_MISMATCH && (phase == CacheUpload || phase == CacheStagingPermissions) then Some(Succeeded)
    else if phase == DaemonStart || phase == OfflineStorageMaintenance then Some(Failed)
    else None
  }

  /** Who runs a phase: the Controller marks it started itself, or an executor runs
      a command that ends with a status. */
  datatype Way = Directly | Executed(status: nat)

  /** One attempt at a phase, and whether the Controller commits it. */
  datatype Attempt = Attempt(phase: Phase, id: string, way: Way, commits: bool) {
    predicate WellFormed() {
      PhaseToken(phase) && Hex32(id)
    }

    function Result(): Option<MarkerKind> {
      if way.Executed? then ResultOf(phase, way.status) else None
    }

    /** The markers that the attempt leaves. */
    function Kinds(): set<MarkerKind> {
      {Started} + (if Result().Some? then {Result().value} else {}) + (if commits then {Committed} else {})
    }

    /** The attempt is over: committed where its phase wants that, else with a
        success of its own; or it failed in a way that is recorded. */
    predicate Over() {
      && Recoverable(phase)
      && if Result() == Some(Failed) then !commits
         else if RequiresCommit(phase) then commits else Result() == Some(Succeeded) && !commits
    }
  }

  function Start(a: Attempt, done: nat): Event {
    Command(StartedLine(2, a.phase, a.id), done)
  }

  /** What happens between the start of an attempt and the next. */
  function Course(a: Attempt): seq<Event> {
    Work(a) + if a.commits then [Command(CommittedLine(2, a.phase, a.id), 0)] else []
  }

  function MarkersOf(attempt: string, kinds: set<MarkerKind>): Markers {
    map kind | kind in kinds :: Marker(kind, attempt) := true
  }

  /** The claim of an owner in the middle of this attempt, with these markers so far. */
  predicate During(t: Tenure, a: Attempt, kinds: set<MarkerKind>) {
    && InTenure(t) && !t.exited && t.s.dir.Some? && t.s.started && t.s.phase == a.phase && t.s.attempt == a.id
    && t.s.dir.value.markers == MarkersOf(a.id, kinds)
  }

  /** No more than what a run changes between two moments of one tenure. */
  predicate SameClaim(t: Tenure, u: Tenure) {
    && t.s.dir.Some? && u.s.dir.Some? && u.s.operation == t.s.operation && u.s.identity == t.s.identity
    && u.s.dir.value == t.s.dir.value.(state := u.s.dir.value.state, phase := u.s.dir.value.phase,
         attempt := u.s.dir.value.attempt, markers := u.s.dir.value.markers)
  }

  lemma {:induction false} MarkersMore(attempt: string, kinds: set<MarkerKind>, kind: MarkerKind)
    ensures MarkersOf(attempt, kinds)[Marker(kind, attempt) := true] == MarkersOf(attempt, kinds + {kind})
    ensures Marker(kind, attempt) in MarkersOf(attempt, kinds) <==> kind in kinds
  {
    if kind in kinds { assert Marker(kind, attempt) in MarkersOf(attempt, kinds); }
    assert MarkersOf(attempt, kinds + {kind}).Keys == MarkersOf(attempt, kinds).Keys + {Marker(kind, attempt)};
  }

  lemma {:induction false} MarkersHave(attempt: string, kinds: set<MarkerKind>)
    ensures forall kind :: kind in kinds <==> Has(MarkersOf(attempt, kinds), Marker(kind, attempt))
    ensures forall marker :: marker in MarkersOf(attempt, kinds) ==> marker.attempt == attempt && marker.kind in kinds
  {
    forall kind ensures kind in kinds <==> Has(MarkersOf(attempt, kinds), Marker(kind, attempt)) { MarkersMore(attempt, kinds, kind); }
  }

  lemma {:induction false} ExecutingEchoes(t: Tenure, a: Attempt)
    requires During(t, a, {})
    ensures var event := Command(ExecutingLine(2, a.phase, a.id), 0);
      Handle(t.s, event.line, 0).1 == Echoed && During(Advance(t, event), a, {Started}) && SameClaim(t, Advance(t, event))
  {
    MarkersMore(a.id, {}, Started);
    assert t.s.SameOwner();
    MarkersHave(a.id, {Started});
  }

  lemma {:induction false} CommitEchoes(t: Tenure, a: Attempt, kinds: set<MarkerKind>)
    requires During(t, a, kinds) && Started in kinds && Committed !in kinds
    ensures var event := Command(CommittedLine(2, a.phase, a.id), 0);
      Handle(t.s, event.line, 0).1 == Echoed && During(Advance(t, event), a, kinds + {Committed}) && SameClaim(t, Advance(t, event))
  {
    MarkersMore(a.id, kinds, Committed);
    MarkersHave(a.id, kinds);
    MarkersHave(a.id, kinds + {Committed});
    assert t.s.SameOwner();
  }

  lemma {:induction false} ExecutorEchoes(t: Tenure, a: Attempt, kinds: set<MarkerKind>, kind: MarkerKind)
    requires During(t, a, kinds) && kind !in kinds && Retiring !in kinds
    requires kind == Started || ((kind == Succeeded || kind == Failed) && Started in kinds)
    ensures During(Advance(t, ExecutorMarks(kind)), a, kinds + {kind}) && SameClaim(t, Advance(t, ExecutorMarks(kind)))
  {
    MarkersMore(a.id, kinds, kind);
    MarkersHave(a.id, kinds);
    MarkersHave(a.id, kinds + {kind});
  }

  lemma {:induction false} RunsOn(t: Tenure, events: seq<Event>, event: Event)
    ensures Tenured(t, events + [event]) == Advance(Tenured(t, events), event)
    ensures !Tenured(t, events).exited ==> Replies(t, events + [event]) == Replies(t, events) + ReplyTo(Tenured(t, events), event)
  {
    assert (events + [event])[..|events|] == events;
  }

  /** The course of an attempt but for its commit. */
  function Work(a: Attempt): seq<Event> {
    match a.way
    case Directly => [Command(ExecutingLine(2, a.phase, a.id), 0)]
    case Executed(status) =>
      if a.Result().Some? then [ExecutorMarks(MarkerKind.Started), ExecutorMarks(a.Result().value)] else [ExecutorMarks(MarkerKind.Started)]
  }

  function WorkKinds(a: Attempt): set<MarkerKind> {
    {Started} + if a.Result().Some? then {a.Result().value} else {}
  }

  lemma {:induction false} OneEvent(t: Tenure, event: Event)
    ensures Tenured(t, [event]) == Advance(t, event)
    ensures Replies(t, [event]) == ReplyTo(t, event)
  {
    assert [event][..0] == [];
    assert Tenured(t, []) == t && Replies(t, []) == [];
  }

  lemma {:induction false} ExecutedWork(t: Tenure, a: Attempt)
    requires During(t, a, {}) && a.way.Executed?
    ensures During(Tenured(t, Work(a)), a, WorkKinds(a)) && SameClaim(t, Tenured(t, Work(a))) && Replies(t, Work(a)) == []
  {
    var first := ExecutorMarks(MarkerKind.Started);
    OneEvent(t, first);
    ExecutorEchoes(t, a, {}, Started);
    assert {} + {Started} == {Started};
    if a.Result().Some? {
      var second := ExecutorMarks(a.Result().value);
      RunsOn(t, [first], second);
      assert [first] + [second] == Work(a);
      ExecutorEchoes(Tenured(t, [first]), a, {Started}, a.Result().value);
    } else {
      assert {Started} + {} == {Started};
    }
  }

  lemma {:induction false} WorkIsEchoed(t: Tenure, a: Attempt)
    requires During(t, a, {}) && a.WellFormed()
    ensures During(Tenured(t, Work(a)), a, WorkKinds(a)) && SameClaim(t, Tenured(t, Work(a))) && AllEchoed(Replies(t, Work(a)))
  {
    if a.way.Executed? {
      ExecutedWork(t, a);
    } else {
      OneEvent(t, Work(a)[0]);
      ExecutingEchoes(t, a);
      assert {Started} + {} == {Started};
    }
  }

  lemma {:induction false} SameClaimOn(t: Tenure, u: Tenure, v: Tenure)
    requires SameClaim(t, u) && SameClaim(u, v)
    ensures SameClaim(t, v)
  {
  }

  lemma {:induction false} CommittedCourse(t: Tenure, u: Tenure, a: Attempt)
    requires During(u, a, WorkKinds(a)) && SameClaim(t, u) && u == Tenured(t, Work(a)) && AllEchoed(Replies(t, Work(a)))
    ensures var commit := Command(CommittedLine(2, a.phase, a.id), 0);
      && During(Tenured(t, Work(a) + [commit]), a, WorkKinds(a) + {Committed})
      && SameClaim(t, Tenured(t, Work(a) + [commit])) && AllEchoed(Replies(t, Work(a) + [commit]))
  {
    var commit := Command(CommittedLine(2, a.phase, a.id), 0);
    RunsOn(t, Work(a), commit);
    CommitEchoes(u, a, WorkKinds(a));
    SameClaimOn(t, u, Advance(u, commit));
    EchoesAdd(Replies(t, Work(a)), ReplyTo(u, commit));
  }

  /** Once started, an attempt takes its ordinary course: every command is echoed,
      and exactly its markers are left. */
  lemma {:induction false} CourseIsEchoed(t: Tenure, a: Attempt)
    requires During(t, a, {}) && a.WellFormed()
    ensures During(Tenured(t, Course(a)), a, a.Kinds()) && SameClaim(t, Tenured(t, Course(a)))
    ensures AllEchoed(Replies(t, Course(a)))
  {
    WorkIsEchoed(t, a);
    if a.commits {
      CommittedCourse(t, Tenured(t, Work(a)), a);
    } else {
      assert Work(a) + [] == Work(a) && WorkKinds(a) + {} == WorkKinds(a);
    }
  }

  /** An attempt may follow when nothing has run, or when the one before is over and its markers can be removed. */
  predicate Follows(t: Tenure, a: Attempt, done: nat) {
    && InTenure(t) && !t.exited && t.s.dir.Some? && done >= 4
    && (t.s.started ==> t.s.attempt != a.id && Retirable(t.s.dir.value.markers, t.s.phase, t.s.attempt))
  }

  lemma {:induction false} StartEchoes(t: Tenure, a: Attempt, done: nat)
    requires Follows(t, a, done) && PhaseToken(a.phase) && Hex32(a.id)
    ensures Handle(t.s, Start(a, done).line, done).1 == Echoed
    ensures During(Advance(t, Start(a, done)), a, {}) && SameClaim(t, Advance(t, Start(a, done)))
  {
    assert t.s.SameOwner();
    assert MarkersOf(a.id, {}) == map[];
  }

  /** The markers an attempt leaves can be retired exactly when it is over. */
  lemma {:induction false} OverIsRetirable(a: Attempt)
    requires a.WellFormed()
    ensures Retirable(MarkersOf(a.id, a.Kinds()), a.phase, a.id) <==> a.Over()
  {
    var kinds := a.Kinds();
    var markers := MarkersOf(a.id, kinds);
    MarkersHave(a.id, kinds);
    var ending := RetiredKind(markers, a.phase, a.id);
    assert Failed in kinds <==> a.Result() == Some(Failed);
    assert Succeeded in kinds <==> a.Result() == Some(Succeeded);
    assert Committed in kinds <==> a.commits;
    assert Marker(Committed, a.id) in markers <==> a.commits;
    if a.Over() {
      forall marker | marker in markers
        ensures markers[marker] && (marker.kind == Started || marker.kind == ending || (marker.kind == Succeeded && a.phase == DaemonStart))
      {
        assert marker.kind in kinds;
      }
    }
  }

  /** When an executed attempt is over, by the exit status of what it ran: a status of
      zero, with a commit exactly where the phase wants one; a digest mismatch that a
      cache phase takes for success; a failure of the two phases that record it; or a
      commit in spite of a failure that was not recorded. */
  lemma {:induction false} StatusDecides(a: Attempt)
    requires a.WellFormed() && a.way.Executed?
    ensures a.Over() <==> !a.phase.OtherPhase? && var commit := EndingOf(a.phase) == Committed;
      || (a.way.status == 0 && a.commits == commit)
      || (a.way.status == 65 && (a.phase == CacheUpload || a.phase == CacheStagingPermissions) && !a.commits)
      || (a.way.status != 0 && (a.phase == DaemonStart || a.phase == OfflineStorageMaintenance) && !a.commits)
      || (a.way.status != 0 && commit && a.phase != DaemonStart && a.commits)
  {
    if !a.phase.OtherPhase? { EndingIsTerminal(a.phase); }
  }

  /** After an attempt the next one is started exactly when the attempt is over; else
      the owner exits 75 and leaves all the evidence recovery pending. */
  lemma {:induction false} NextPhaseIsAdmitted(t: Tenure, a: Attempt, next: Attempt, done: nat)
    requires During(t, a, a.Kinds()) && a.WellFormed()
    requires PhaseToken(next.phase) && Hex32(next.id) && next.id != a.id && done >= 4
    ensures Handle(t.s, Start(next, done).line, done).1 == Echoed <==> a.Over()
    ensures var u := Advance(t, Start(next, done));
      if a.Over() then During(u, next, {})
      else u.exited && u.s.dir == Some(t.s.dir.value.(state := RecoveryPending))
  {
    OverIsRetirable(a);
    assert t.s.SameOwner();
    if a.Over() { StartEchoes(t, next, done); }
  }

  /** Losing the channel after an attempt removes the claim exactly when the attempt
      is over without having failed; else it stays with all its evidence. */
  lemma {:induction false} LossAfterAttempt(t: Tenure, a: Attempt)
    requires During(t, a, a.Kinds()) && a.WellFormed() && Recoverable(a.phase)
    ensures var u := Advance(t, ChannelLost);
      && u.exited
      && if a.Over() && a.Result() != Some(Failed) then u.s.dir == None && u.s.ending == Some(ReconciledFailed)
         else u.s.dir == Some(t.s.dir.value.(state := RecoveryPending))
  {
    var kinds := a.Kinds();
    var markers := MarkersOf(a.id, kinds);
    MarkersHave(a.id, kinds);
    assert t.s.SameOwner();
    assert Failed in kinds <==> a.Result() == Some(Failed);
    assert Succeeded in kinds <==> a.Result() == Some(Succeeded);
    assert Marker(Started, a.id) in markers && Marker(Retiring, a.id) !in markers;
    assert Marker(Failed, a.id) in markers <==> Failed in kinds;
    assert Marker(Committed, a.id) in markers <==> a.commits;
    assert Marker(Succeeded, a.id) in markers <==> Succeeded in kinds;
    assert Closable(markers, a.phase, a.id) <==> a.Over() && a.Result() != Some(Failed);
  }

  /** Attempts one after the other, each started when the one before took its course. */
  function Campaign(attempts: seq<Attempt>, done: nat): seq<Event> {
    if attempts == [] then [] else
    Campaign(attempts[..|attempts| - 1], done) + ([Start(attempts[|attempts| - 1], done)] + Course(attempts[|attempts| - 1]))
  }

  /** Well-formed attempts, each but the last over, and no two neighbours under one name. */
  predicate InOrder(attempts: seq<Attempt>) {
    && (forall i :: 0 <= i < |attempts| ==> attempts[i].WellFormed())
    && (forall i :: 0 <= i < |attempts| - 1 ==> attempts[i].Over() && attempts[i].id != attempts[i + 1].id)
  }

  lemma {:induction false} RunsOnWith(t: Tenure, events: seq<Event>, more: seq<Event>)
    ensures Tenured(t, events + more) == Tenured(Tenured(t, events), more)
    ensures Replies(t, events + more) == Replies(t, events) + Replies(Tenured(t, events), more)
    decreases |more|
  {
    if more == [] {
      assert events + more == events;
    } else {
      var last := more[|more| - 1];
      RunsOnWith(t, events, more[..|more| - 1]);
      assert (events + more)[..|events + more| - 1] == events + more[..|more| - 1];
    }
  }

  /** Any number of attempts in their ordinary course: no command is refused, and the
      claim records the last attempt with exactly its markers. */
  lemma {:induction false} CampaignIsEchoed(t: Tenure, attempts: seq<Attempt>, done: nat)
    requires InTenure(t) && !t.exited && !t.s.started && t.s.dir.Some? && InOrder(attempts) && attempts != [] && done >= 4
    ensures var last := attempts[|attempts| - 1]; var u := Tenured(t, Campaign(attempts, done));
      During(u, last, last.Kinds()) && SameClaim(t, u) && AllEchoed(Replies(t, Campaign(attempts, done)))
  {
    var n := |attempts| - 1;
    var before, a := attempts[..n], attempts[n];
    var earlier := Campaign(before, done);
    var now := Tenured(t, earlier);
    InOrderBefore(attempts);
    if n > 0 {
      CampaignIsEchoed(t, before, done);
      OverIsFollowed(now, before[n - 1], a, done);
    }
    AttemptIsEchoed(now, a, done);
    RunsOnWith(t, earlier, [Start(a, done)] + Course(a));
    EchoesAdd(Replies(t, earlier), Replies(now, [Start(a, done)] + Course(a)));
  }

  lemma {:induction false} EchoesAdd(a: seq<Outcome>, b: seq<Outcome>)
    requires AllEchoed(a) && AllEchoed(b)
    ensures AllEchoed(a + b)
  {
  }

  lemma {:induction false} InOrderBefore(attempts: seq<Attempt>)
    requires InOrder(attempts) && attempts != []
    ensures var n := |attempts| - 1;
      InOrder(attempts[..n]) && attempts[n].WellFormed() && (n > 0 ==> attempts[n - 1].Over() && attempts[n - 1].id != attempts[n].id)
  {
    var before := attempts[..|attempts| - 1];
    assert forall i :: 0 <= i < |before| ==> before[i] == attempts[i];
  }

  lemma {:induction false} OverIsFollowed(t: Tenure, a: Attempt, next: Attempt, done: nat)
    requires During(t, a, a.Kinds()) && a.WellFormed() && a.Over() && a.id != next.id && done >= 4
    ensures Follows(t, next, done)
  {
    OverIsRetirable(a);
  }

  lemma {:induction false} AttemptIsEchoed(t: Tenure, a: Attempt, done: nat)
    requires Follows(t, a, done) && a.WellFormed()
    ensures var events := [Start(a, done)] + Course(a);
      During(Tenured(t, events), a, a.Kinds()) && SameClaim(t, Tenured(t, events)) && AllEchoed(Replies(t, events))
  {
    StartEchoes(t, a, done);
    OneEvent(t, Start(a, done));
    CourseIsEchoed(Advance(t, Start(a, done)), a);
    RunsOnWith(t, [Start(a, done)], Course(a));
  }

  /** A release ends the tenure and takes the claim with it. */
  lemma {:induction false} ReleaseRemovesTheClaim(t: Tenure, done: nat)
    requires InTenure(t) && !t.exited && t.s.dir.Some?
    ensures Handle(t.s, ReleaseLine, done).1 == Released
    ensures var u := Advance(t, Command(ReleaseLine, done)); u.exited && u.s.released && u.s.dir == None
  {
    assert t.s.SameOwner();
  }

  /** A heartbeat keeps the claim from being taken for thirty seconds, whatever the
      probes say, and changes nothing else. */
  lemma {:induction false} HeartbeatProtects(t: Tenure, now: int, later: int, p: Probes)
    requires InTenure(t) && !t.exited && t.s.dir.Some?
    ensures var u := Advance(t, Command(HeartbeatLine(now), 0));
      && InTenure(u) && !u.exited && u.s.dir == Some(t.s.dir.value.(heartbeat := Some(now)))
      && u == t.(s := t.s.(dir := u.s.dir)) && Handle(t.s, HeartbeatLine(now), 0).1 == Silent
      && (later <= now + 30 ==> !Accepts(u.s.dir.value, later, p))
  {
    assert t.s.SameOwner();
    AcceptedExactly(t.s.dir.value.(heartbeat := Some(now)), later, p);
  }

  // ------------------------------------------------------------- other commands

  /** A phase name by its ASCII codes: digits, letters, hyphens and underscores. */
  predicate PhaseText(phase: Phase) {
    phase.OtherPhase? ==>
      phase.token != "" && forall c :: c in phase.token ==>
        48 <= c as int <= 57 || 65 <= c as int <= 90 || 97 <= c as int <= 122 || c as int == 45 || c as int == 95
  }

  /** A start that does not name one phase and one attempt of 32 hexadecimal digits
      ends the owner with status 64 and changes nothing; no other one does. */
  lemma {:induction false} MalformedStartIsRefused(s: OwnerState, words: nat, phase: Phase, attempt: string, done: nat)
    requires s.SameOwner()
    ensures Handle(s, StartedLine(words, phase, attempt), done).1 == Exited(64) <==>
      !(words == 2 && PhaseText(phase) && IdentityText(attempt))
    ensures Handle(s, StartedLine(words, phase, attempt), done).1 == Exited(64) ==>
      Handle(s, StartedLine(words, phase, attempt), done).0 == s
  {
    HexAgrees(attempt);
    if phase.OtherPhase? {
      forall i | 0 <= i < |phase.token| ensures phase.token[i] in phase.token {}
    }
  }

  /** A mark is echoed exactly when the claim is the owner's own, the line names the
      recorded attempt and no other word, and that mark comes next; it is then the
      only change, and otherwise the owner ends with status 75 and changes nothing. */
  lemma {:induction false} StrangeMarkIsRefused(s: OwnerState, words: nat, phase: Phase, attempt: string, commits: bool, done: nat)
    ensures var line := if commits then CommittedLine(words, phase, attempt) else ExecutingLine(words, phase, attempt);
      var kind := if commits then Committed else MarkerKind.Started;
      if && s.dir.Some? && s.dir.value.operation == s.operation && s.dir.value.identity == s.identity
         && words == 2 && phase == s.phase && attempt == s.attempt && Marker(kind, attempt) !in s.dir.value.markers
         && (commits ==> Marker(Started, attempt) in s.dir.value.markers && s.dir.value.markers[Marker(Started, attempt)])
      then Handle(s, line, done) ==
        (s.(dir := Some(s.dir.value.(markers := s.dir.value.markers[Marker(kind, attempt) := true]))), Echoed)
      else Handle(s, line, done) == (s, Exited(75))
  {
  }
}
