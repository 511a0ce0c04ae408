/**
What the follower's decisions mean in terms of the answers alone: durable reads
by the fields they show, the end of a Turn by name, the events that came, and
the reconnect budget between two events.
*/
module TurnLaws {
  import opened Options
  import opened TurnEvents
  import opened TurnFollower

  // -------------------------------------------------------------- durable reads

  /** The first Turn of the session that has the target's name. */
  ghost predicate TheTurn(turns: seq<Turn>, id: string, turn: Turn) {
    exists i :: 0 <= i < |turns| && turns[i] == turn && turn.id == id && forall j :: 0 <= j < i ==> turns[j].id != id
  }

  lemma {:induction false} FoundIsTheTurn(turns: seq<Turn>, id: string, turn: Turn)
    ensures FindTurn(turns, id) == Some(turn) <==> TheTurn(turns, id, turn)
    ensures FindTurn(turns, id) == None <==> forall i :: 0 <= i < |turns| ==> turns[i].id != id
  {
    if turns != [] {
      var rest := turns[1..];
      FoundIsTheTurn(rest, id, turn);
      assert forall i :: 0 <= i < |rest| ==> rest[i] == turns[i + 1];
      if turns[0].id != id {
        if TheTurn(rest, id, turn) {
          var i :| 0 <= i < |rest| && rest[i] == turn && turn.id == id && forall j :: 0 <= j < i ==> rest[j].id != id;
          assert turns[i + 1] == turn && forall j :: 0 <= j < i + 1 ==> turns[j].id != id;
        }
        if TheTurn(turns, id, turn) {
          var i :| 0 <= i < |turns| && turns[i] == turn && turn.id == id && forall j :: 0 <= j < i ==> turns[j].id != id;
          assert rest[i - 1] == turn && forall j :: 0 <= j < i - 1 ==> rest[j].id != id;
        }
      } else if turns[0] == turn {
        assert TheTurn(turns, id, turn);
      }
    }
  }

  /** The log holds a line of this Turn at exactly its revision, no newer than the session. */
  predicate Logs(log: LogAnswer, session: Session, turn: Turn) {
    log.Logged? && exists line :: line in log.lines && Notes(line, session, turn)
  }

  predicate Notes(line: LogLine, session: Session, turn: Turn) {
    && line.session == session.id && line.turn == turn.id
    && line.turnRevision == turn.revision && line.sessionRevision <= session.revision
  }

  lemma {:induction false} LogsExactly(lines: seq<LogLine>, session: Session, turn: Turn)
    ensures LogsRevision(lines, session, turn) <==> Logs(Logged(lines), session, turn)
  {
    if LogsRevision(lines, session, turn) {
      var i :| 0 <= i < |lines| && lines[i].session == session.id && lines[i].turn == turn.id
        && lines[i].sessionRevision <= session.revision && lines[i].turnRevision == turn.revision;
      assert lines[i] in lines && Notes(lines[i], session, turn);
    }
  }

  predicate Behind(turn: Turn, minimum: Option<nat>) {
    minimum.Some? && turn.revision < minimum.value
  }

  predicate Going(turn: Turn) {
    turn.state == Starting || turn.state == Running
  }

  /** A read ends the Turn exactly when it shows the target's Turn in one of four
      states, not behind what was asked for, and its log has the line for it. */
  lemma {:induction false} EndedExactly(answer: ReadAnswer, target: Target, minimum: Option<nat>, session: Session, turn: Turn)
    ensures Reconcile(answer, target, minimum) == Ended(session, turn) <==>
      && answer.Status? && answer.session == session && TheTurn(session.turns, target.turn, turn)
      && (turn.state == Completed || turn.state == Blocked || turn.state == Failed || turn.state == Stopped)
      && !Behind(turn, minimum) && Logs(answer.log, session, turn)
  {
    if answer.Status? {
      FoundIsTheTurn(session.turns, target.turn, turn);
      if answer.log.Logged? { LogsExactly(answer.log.lines, session, turn); }
    }
  }

  /** It finds the Turn active exactly when it shows it starting or running, and not behind. */
  lemma {:induction false} ActiveExactly(answer: ReadAnswer, target: Target, minimum: Option<nat>)
    ensures Reconcile(answer, target, minimum) == Active <==>
      answer.Status? && exists turn :: TheTurn(answer.session.turns, target.turn, turn) && Going(turn) && !Behind(turn, minimum)
  {
    if answer.Status? {
      forall turn ensures FindTurn(answer.session.turns, target.turn) == Some(turn) <==> TheTurn(answer.session.turns, target.turn, turn) {
        FoundIsTheTurn(answer.session.turns, target.turn, turn);
      }
    }
  }

  /** Why a read that shows this Turn is an error. */
  ghost predicate Faulty(answer: ReadAnswer, turn: Turn, minimum: Option<nat>, code: Code)
    requires answer.Status?
  {
    if Behind(turn, minimum) then code == InvalidResponse
    else if turn.state == RecoveryPending then code == TurnRecoveryPending
    else
      && !Going(turn)
      && if answer.log.LogFailed? then code == answer.log.code else code == InvalidResponse && !Logs(answer.log, answer.session, turn)
  }

  /** Every other read is an error: its own, a missing Turn, a stale one, one that
      awaits recovery, or an end without its log line. */
  lemma {:induction false} ErrorExactly(answer: ReadAnswer, target: Target, minimum: Option<nat>, code: Code)
    ensures Reconcile(answer, target, minimum) == Error(code) <==>
      if answer.ReadFailed? then code == answer.code
      else if forall i :: 0 <= i < |answer.session.turns| ==> answer.session.turns[i].id != target.turn then code == InvalidResponse
      else exists turn :: TheTurn(answer.session.turns, target.turn, turn) && Faulty(answer, turn, minimum, code)
  {
    if answer.Status? {
      var turns := answer.session.turns;
      forall turn ensures FindTurn(turns, target.turn) == Some(turn) <==> TheTurn(turns, target.turn, turn) {
        FoundIsTheTurn(turns, target.turn, turn);
      }
      var found := FindTurn(turns, target.turn);
      if found.None? {
        FoundIsTheTurn(turns, target.turn, Turn("", Starting, 0));
      } else {
        FoundIsTheTurn(turns, target.turn, found.value);
        if answer.log.Logged? { LogsExactly(answer.log.lines, answer.session, found.value); }
      }
    }
  }

  // ----------------------------------------------------------- the end of a Turn

  /** The event that announces a Turn's end in this state. */
  predicate Announces(kind: EventType, state: TurnState) {
    || (kind == TurnCompleted && state == Completed) || (kind == TurnBlocked && state == Blocked)
    || (kind == TurnFailed && state == Failed) || (kind == TurnStopped && state == Stopped)
  }

  /** An event after which more may come. */
  predicate Open(kind: EventType) {
    || kind == Preflight || kind == Readiness || kind == ProviderSmoke
    || kind == TurnQueued || kind == QueuePositionChanged || kind == TurnDequeued
    || kind == TurnStarted || kind == TurnProgress || kind == ActionRequired
  }

  function KindOf(d: Delivery): EventType {
    if d.Pass? then d.event.kind else d.kind
  }

  /** The verdict is what a durable read shows, and the last delivery announces it. */
  ghost predicate WellEnded(target: Target, script: seq<Answer>, s: State, v: Verdict) {
    && s.delivered != [] && Announces(KindOf(s.delivered[|s.delivered| - 1]), v.turn.state)
    && v.proof < s.used <= |script| && script[v.proof].Read?
    && var read := script[v.proof].answer;
       read.Status? && TheTurn(read.session.turns, target.turn, v.turn) && Logs(read.log, read.session, v.turn)
  }

  lemma {:induction false} EndIsAnnounced(target: Target, script: seq<Answer>, s: State, v: Verdict)
    requires EndedWell(target, script, s, v)
    ensures WellEnded(target, script, s, v)
  {
    FinishedMeansOneTerminal(target, script, s, v);
    EndedExactly(script[v.proof].answer, target, None, v.session, v.turn);
  }

  lemma {:induction false} NothingEnds(deliveries: seq<Delivery>)
    requires NoTerminal(deliveries)
    ensures forall i :: 0 <= i < |deliveries| ==> Open(KindOf(deliveries[i]))
  {
    forall i | 0 <= i < |deliveries| ensures Open(KindOf(deliveries[i])) {
      assert !deliveries[i].IsTerminal();
    }
  }

  /** Whatever a run delivered before its last delivery leaves the Turn open; if it
      ended well the last one announces the state that a logged durable read shows. */
  lemma {:induction false} DeliversOneEnd(
    target: Target, begin: seq<Event>, script: seq<Answer>, s: State, outcome: Outcome, refuses: nat -> bool)
    requires TurnFollower.Stopped(target, begin, script, s, outcome, refuses)
    ensures forall i :: 0 <= i < |s.delivered| - 1 ==> Open(KindOf(s.delivered[i]))
    ensures outcome.GaveUp? || outcome.Unfinished? ==> forall i :: 0 <= i < |s.delivered| ==> Open(KindOf(s.delivered[i]))
    ensures outcome.Finished? ==> WellEnded(target, script, s, outcome.verdict)
  {
    if s.delivered != [] {
      var before := s.delivered[..|s.delivered| - 1];
      NothingEnds(before);
      assert forall i :: 0 <= i < |before| ==> before[i] == s.delivered[i];
    }
    if outcome.Finished? { EndIsAnnounced(target, script, s, outcome.verdict); }
    else if !outcome.OutputRefused? { NothingEnds(s.delivered); }
  }

  // ---------------------------------------------------------- the events that came

  lemma {:induction false} EventsGrow(script: seq<Answer>, i: nat, n: nat)
    requires i <= n <= |script|
    ensures EventsIn(script, i) <= EventsIn(script, n)
    decreases n
  {
    if i < n {
      EventsGrow(script, i, n - 1);
      var before, more := EventsIn(script, n - 1), EventsOf(script[n - 1]);
      assert before <= before + more;
    }
  }

  /** The events of the answers in order: an arrival brings its one, a drain all that
      were there, and nothing else brings any. */
  lemma {:induction false} EventsCameInOrder(script: seq<Answer>, n: nat, i: nat)
    requires i < n <= |script|
    ensures EventsIn(script, i) <= EventsIn(script, i + 1) <= EventsIn(script, n)
    ensures EventsIn(script, i + 1)[|EventsIn(script, i)|..] ==
      if script[i].Arrives? then [script[i].event] else if script[i].Ready? then script[i].events else []
  {
    EventsGrow(script, i, i + 1);
    EventsGrow(script, i + 1, n);
    var before, more := EventsIn(script, i), EventsOf(script[i]);
    assert (before + more)[|before|..] == more;
  }

  // ------------------------------------------------------------ the reconnect budget

  /** The attempts counted against the budget are the connections asked for since
      the last event was taken up. */
  predicate Budgeted(script: seq<Answer>, s: State) {
    s.at.from <= s.used <= |script| && ConnectsIn(script, s.at.from) + s.reconnects == ConnectsIn(script, s.used)
  }

  lemma {:induction false} TickSpendsNothing(target: Target, script: seq<Answer>, h: State, g: State)
    requires h.used < |script| && Ticked(target, script, h, g)
    ensures h.used <= g.used <= |script| && ConnectsIn(script, g.used) == ConnectsIn(script, h.used)
  {
    var read := if JustRead(script, g.used) then g.used else g.used - 1;
    ReadsBringNothing(script, h.used + 1, read);
  }

  lemma {:induction false} EventSpendsNothing(target: Target, script: seq<Answer>, h: State, b: nat)
    requires var u := TakenUp(target, script, h); |h.received| < |u.received| && Onward(target, script, u, b) && b <= u.at.Due()
    ensures var u := TakenUp(target, script, h);
      u.reconnects == 0 && u.at.from == u.used <= b <= |script| && ConnectsIn(script, b) == ConnectsIn(script, u.used)
  {
    var u := TakenUp(target, script, h);
    EventReads(target, script, u, b);
    ReadsBringNothing(script, u.used, b);
  }

  lemma {:induction false} TurnIsBudgeted(target: Target, script: seq<Answer>, h: State, g: State)
    requires Turned(target, script, h, g) && Budgeted(script, h)
    ensures Budgeted(script, g)
  {
    var u := TakenUp(target, script, h);
    if |h.received| < |u.received| {
      EventSpendsNothing(target, script, h, g.used);
      assert g.at == u.at && g.reconnects == u.reconnects;
    } else if Ticked(target, script, h, g) {
      TickSpendsNothing(target, script, h, g);
      assert g.at == h.at && g.reconnects == h.reconnects;
    } else {
      assert g.at == h.at;
    }
  }

  lemma {:induction false} TrailIsBudgeted(target: Target, begin: seq<Event>, script: seq<Answer>, heads: seq<State>)
    requires Trail(target, begin, script, heads)
    ensures Budgeted(script, heads[|heads| - 1])
  {
    if |heads| > 1 {
      TrailIsBudgeted(target, begin, script, heads[..|heads| - 1]);
      TurnIsBudgeted(target, script, heads[|heads| - 2], heads[|heads| - 1]);
    }
  }

  lemma {:induction false} EndIsBudgeted(target: Target, script: seq<Answer>, h: State, outcome: Outcome, s: State)
    requires Budgeted(script, h) && Left(target, script, h, outcome, s)
    ensures Budgeted(script, s)
  {
    var u := TakenUp(target, script, h);
    if |h.received| < |u.received| { EventSpendsNothing(target, script, h, s.used); }
    assert s.at == u.at;
  }

  /** The stream was given up for a reason: an answer ruled out another attempt, three
      were made since the last event, or a durable read said so itself. */
  predicate GivenUp(script: seq<Answer>, s: State) {
    s.at.from <= s.used <= |script| &&
    var k := Start(script, s.used);
    || (JustRead(script, s.used) && script[s.used - 1].answer == ReadFailed(EventStreamLost))
    || (JustRead(script, s.used) && script[s.used - 1].answer.Status? && script[s.used - 1].answer.log == LogFailed(EventStreamLost))
    || (k > 0 && (script[k - 1] == Lost(false) || script[k - 1] == Refused(false)))
    || (k > 0 && (script[k - 1] == Lost(true) || script[k - 1] == Refused(true))
        && ConnectsIn(script, s.used) >= ConnectsIn(script, s.at.from) + 3)
  }

  lemma {:induction false} LostMeansGivenUp(target: Target, script: seq<Answer>, s: State)
    requires Budgeted(script, s) && Standing(target, script, s) == Fails(EventStreamLost)
    ensures GivenUp(script, s)
  {
  }

  /** Over every run: it ends for a lost stream only when an answer ruled out another
      attempt, or when three were made since the last event was taken up. */
  lemma {:induction false} StreamGivenUpAfterThree(
    target: Target, begin: seq<Event>, script: seq<Answer>, heads: seq<State>, s: State)
    requires Trail(target, begin, script, heads) && Left(target, script, heads[|heads| - 1], GaveUp(EventStreamLost), s)
    ensures s.at == TakenUp(target, script, heads[|heads| - 1]).at && GivenUp(script, s)
  {
    TrailIsBudgeted(target, begin, script, heads);
    EndIsBudgeted(target, script, heads[|heads| - 1], GaveUp(EventStreamLost), s);
    LostMeansGivenUp(target, script, s);
  }

  /** The run gave up on an unreachable Host only when the budget for that was spent:
      three reads after a new stream was subscribed, or three refused attempts. */
  predicate RiddenOut(script: seq<Answer>, s: State) {
    s.at.from <= s.used <= |script| &&
    var k := Start(script, s.used);
    k > s.at.Due() ==>
      || (script[k - 1].Connected? && s.used >= k + 3)
      || (script[k - 1].Refused? && s.used > k && ConnectsIn(script, s.used) >= ConnectsIn(script, s.at.from) + 3)
  }

  lemma {:induction false} UnreachableMeansRiddenOut(target: Target, script: seq<Answer>, s: State)
    requires Budgeted(script, s) && Standing(target, script, s) == Fails(HostUnreachable)
    ensures RiddenOut(script, s)
  {
  }

  /** Over every run: unless it is reading for an event, it gives up on an unreachable
      Host only after three reads of a new stream or three attempts to get one. */
  lemma {:induction false} UnreachableIsRiddenOut(
    target: Target, begin: seq<Event>, script: seq<Answer>, heads: seq<State>, s: State)
    requires Trail(target, begin, script, heads) && Left(target, script, heads[|heads| - 1], GaveUp(HostUnreachable), s)
    ensures RiddenOut(script, s)
  {
    TrailIsBudgeted(target, begin, script, heads);
    EndIsBudgeted(target, script, heads[|heads| - 1], GaveUp(HostUnreachable), s);
    UnreachableMeansRiddenOut(target, script, s);
  }

  // ------------------------------------------------------ ends are not passed over

  lemma {:induction false} OnwardPosed(target: Target, script: seq<Answer>, u: State, b: nat, i: nat)
    requires Onward(target, script, u, b) && u.used <= i < b
    ensures i < |script| && Poses(target, script, Moved(script, u, i), script[i])
    decreases b
  {
    if i < b - 1 { OnwardPosed(target, script, u, b - 1, i); }
  }

  /** Where a run stands once a read, after other reads only, has shown the Turn over. */
  lemma {:induction false} EndedStands(target: Target, script: seq<Answer>, s: State)
    requires s.at.Due() < s.used < |script| && script[s.used].Read? && Standing(target, script, s) == Waits(Durable)
    requires Reconcile(script[s.used].answer, target, s.highest).Ended?
    ensures var stand := Standing(target, script, s.(used := s.used + 1)); stand.Ends? || stand == Waits(Drain)
  {
    StartIs(script, Start(script, s.used), s.used + 1);
  }

  /** Away from the reads of an event, a read that shows the Turn over is the last answer
      used, or only the drain of what had already come is used after it. */
  lemma {:induction false} EndedReadStops(target: Target, script: seq<Answer>, u: State, b: nat, i: nat)
    requires Onward(target, script, u, b) && u.at.Due() <= u.used < i && i + 1 < b
    requires script[i].Read? && Reconcile(script[i].answer, target, u.highest).Ended?
    ensures script[i + 1].Ready? || script[i + 1].DrainFailed?
  {
    OnwardPosed(target, script, u, b, i);
    OnwardPosed(target, script, u, b, i + 1);
    var s := Moved(script, u, i);
    assert Moved(script, u, i + 1) == s.(used := i + 1);
    EndedStands(target, script, s);
  }
}
