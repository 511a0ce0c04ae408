/**
What an attached command sees of one Turn: live events, durable status reads,
and the rule by which events are relayed.
*/
module TurnEvents {
  import opened Options

  datatype EventType =
    | Preflight | Readiness | ProviderSmoke
    | TurnQueued | QueuePositionChanged | TurnDequeued
    | TurnQueueCancelled | TurnQueueExpired | TurnQueueValidationFailed
    | TurnStarted | TurnProgress | ActionRequired | CommandFailed
    | TurnCompleted | TurnBlocked | TurnFailed | TurnStopped

  predicate Terminal(kind: EventType) {
    kind in {CommandFailed, TurnQueueCancelled, TurnQueueExpired, TurnQueueValidationFailed,
      TurnCompleted, TurnBlocked, TurnFailed, TurnStopped}
  }

  /** A live event.  `revision` is the Turn revision of its state subject, and
      `recovery` marks a Host observation that the Turn awaits recovery. */
  datatype Event = Event(
    kind: EventType,
    sequence: nat,
    session: Option<string>,
    turn: Option<string>,
    revision: Option<nat>,
    recovery: bool)

  datatype Target = Target(session: string, turn: string)

  datatype TurnState = Starting | Running | RecoveryPending | Completed | Blocked | Failed | Stopped

  function TerminalKind(state: TurnState): Option<EventType> {
    match state
    case Completed => Some(TurnCompleted)
    case Blocked => Some(TurnBlocked)
    case Failed => Some(TurnFailed)
    case Stopped => Some(TurnStopped)
    case _ => None
  }

  datatype Turn = Turn(id: string, state: TurnState, revision: nat)
  datatype Session = Session(id: string, revision: nat, turns: seq<Turn>)
  datatype LogLine = LogLine(session: string, turn: string, sessionRevision: nat, turnRevision: nat)

  datatype Code = HostUnreachable | InvalidResponse | TurnRecoveryPending | EventStreamLost | OtherCode

  datatype LogAnswer = Logged(lines: seq<LogLine>) | LogFailed(code: Code)

  /** One durable read: the session, and the session's log for terminal Turns. */
  datatype ReadAnswer = Status(session: Session, log: LogAnswer) | ReadFailed(code: Code)

  function FindTurn(turns: seq<Turn>, id: string): Option<Turn> {
    if turns == [] then None else if turns[0].id == id then Some(turns[0]) else FindTurn(turns[1..], id)
  }

  predicate LogsRevision(lines: seq<LogLine>, session: Session, turn: Turn) {
    exists i :: 0 <= i < |lines| && lines[i].session == session.id && lines[i].turn == turn.id
      && lines[i].sessionRevision <= session.revision && lines[i].turnRevision == turn.revision
  }

  datatype Reconciled = Ended(session: Session, turn: Turn) | Active | Error(code: Code)

  function Reconcile(answer: ReadAnswer, target: Target, minimum: Option<nat>): Reconciled {
    if answer.ReadFailed? then Error(answer.code) else
    var found := FindTurn(answer.session.turns, target.turn);
    if found.None? then Error(InvalidResponse) else
    var turn := found.value;
    if minimum.Some? && turn.revision < minimum.value then Error(InvalidResponse)
    else if turn.state == RecoveryPending then Error(TurnRecoveryPending)
    else if TerminalKind(turn.state).None? then Active
    else match answer.log
      case LogFailed(code) => Error(code)
      case Logged(lines) =>
        if LogsRevision(lines, answer.session, turn) then Ended(answer.session, turn) else Error(InvalidResponse)
  }

  // ------------------------------------------------------------------- relaying

  function TargetRevision(e: Event, target: Target): Option<nat> {
    if e.session == Some(target.session) && e.turn == Some(target.turn) then e.revision else None
  }

  predicate Exempt(kind: EventType) {
    kind == ProviderSmoke || kind == Readiness
  }

  predicate Repeats(kind: EventType) {
    kind == ActionRequired || kind == Preflight
  }

  predicate Deliverable(kind: EventType, revision: nat, highest: Option<nat>) {
    highest.None? || revision > highest.value || (revision == highest.value && Repeats(kind))
  }

  predicate Relayed(e: Event, target: Target, highest: Option<nat>) {
    Exempt(e.kind) ||
    (TargetRevision(e, target).Some? && Deliverable(e.kind, TargetRevision(e, target).value, highest))
  }

  function Max(a: Option<nat>, b: nat): nat {
    if a.Some? && a.value > b then a.value else b
  }

  /** The highest revision among relayed events that carry one. */
  function Highest(target: Target, relayed: seq<Event>): Option<nat> {
    if relayed == [] then None else
    var before := Highest(target, relayed[..|relayed| - 1]);
    var e := relayed[|relayed| - 1];
    if Exempt(e.kind) || TargetRevision(e, target).None? then before
    else Some(Max(before, TargetRevision(e, target).value))
  }

  /** The events that are passed on, of all events received. */
  function Relay(target: Target, received: seq<Event>): seq<Event> {
    if received == [] then [] else
    var before := Relay(target, received[..|received| - 1]);
    var e := received[|received| - 1];
    if Relayed(e, target, Highest(target, before)) then before + [e] else before
  }

  lemma {:induction false} HighestMore(target: Target, relayed: seq<Event>, e: Event)
    ensures Highest(target, relayed + [e]) ==
      if Exempt(e.kind) || TargetRevision(e, target).None? then Highest(target, relayed)
      else Some(Max(Highest(target, relayed), TargetRevision(e, target).value))
  {
    assert (relayed + [e])[..|relayed|] == relayed;
  }

  /** An event bound to a revision of the target Turn. */
  predicate Bound(e: Event, target: Target) {
    !Exempt(e.kind) && TargetRevision(e, target).Some?
  }

  lemma {:induction false} HighestBounds(target: Target, relayed: seq<Event>, i: nat)
    requires i < |relayed| && Bound(relayed[i], target)
    ensures Highest(target, relayed).Some? && TargetRevision(relayed[i], target).value <= Highest(target, relayed).value
  {
    var before := relayed[..|relayed| - 1];
    if i < |before| { HighestBounds(target, before, i); }
  }

  lemma {:induction false} RelayIsPrefixClosed(target: Target, received: seq<Event>, j: nat)
    requires j < |Relay(target, received)| && !Exempt(Relay(target, received)[j].kind)
    ensures var e := Relay(target, received)[j];
      TargetRevision(e, target).Some? && Deliverable(e.kind, TargetRevision(e, target).value, Highest(target, Relay(target, received)[..j]))
  {
    var before := Relay(target, received[..|received| - 1]);
    var all := Relay(target, received);
    if j < |before| {
      assert all[..j] == before[..j];
      RelayIsPrefixClosed(target, received[..|received| - 1], j);
    } else {
      assert all[..j] == before;
    }
  }

  /** Relayed revisions never decrease, and repeat only for approvals and preflights. */
  lemma {:induction false} RelayedRevisionsAscend(target: Target, received: seq<Event>, i: nat, j: nat)
    requires i < j < |Relay(target, received)|
    requires Bound(Relay(target, received)[i], target) && !Exempt(Relay(target, received)[j].kind)
    ensures var a, b := Relay(target, received)[i], Relay(target, received)[j];
      && Bound(b, target) && TargetRevision(a, target).value <= TargetRevision(b, target).value
      && (TargetRevision(a, target) == TargetRevision(b, target) ==> Repeats(b.kind))
  {
    RelayIsPrefixClosed(target, received, j);
    HighestBounds(target, Relay(target, received)[..j], i);
  }

  /** A revision is the largest of those that the target's events carry, or none is carried. */
  ghost predicate Tops(target: Target, received: seq<Event>, highest: Option<nat>) {
    && (forall k :: 0 <= k < |received| && Bound(received[k], target) ==>
        highest.Some? && TargetRevision(received[k], target).value <= highest.value)
    && (highest.Some? ==> exists k :: 0 <= k < |received| && Bound(received[k], target) && TargetRevision(received[k], target) == highest)
  }

  /** What has been relayed carries the largest revision received. */
  lemma {:induction false} HighestTops(target: Target, received: seq<Event>)
    ensures Tops(target, received, Highest(target, Relay(target, received)))
  {
    if received != [] {
      var n := |received| - 1;
      var before, e := received[..n], received[n];
      HighestTops(target, before);
      HighestMore(target, Relay(target, before), e);
      var was, now := Highest(target, Relay(target, before)), Highest(target, Relay(target, received));
      if now == was {
        if was.Some? {
          var k :| 0 <= k < |before| && Bound(before[k], target) && TargetRevision(before[k], target) == was;
          assert received[k] == before[k];
        }
      } else {
        assert Bound(received[n], target) && TargetRevision(received[n], target) == now;
      }
      forall k | 0 <= k < |received| && Bound(received[k], target)
        ensures now.Some? && TargetRevision(received[k], target).value <= now.value
      {
        if k < n { assert received[k] == before[k]; }
      }
    }
  }

  /** An event is relayed exactly when it is exempt, or bound to the Turn and newer
      than every bound event received before it; approvals and preflights also
      when one of those is as new. */
  lemma {:induction false} RelayedExactly(target: Target, received: seq<Event>, e: Event)
    ensures Relay(target, received + [e]) == Relay(target, received) + [e] <==>
      || e.kind == ProviderSmoke || e.kind == Readiness
      || (&& e.session == Some(target.session) && e.turn == Some(target.turn) && e.revision.Some?
          && forall k :: 0 <= k < |received| && Bound(received[k], target) ==>
               || TargetRevision(received[k], target).value < e.revision.value
               || (TargetRevision(received[k], target).value == e.revision.value && (e.kind == ActionRequired || e.kind == Preflight)))
    ensures Relay(target, received + [e]) == Relay(target, received) + [e] || Relay(target, received + [e]) == Relay(target, received)
  {
    HighestTops(target, received);
    assert (received + [e])[..|received|] == received;
    assert Relay(target, received) + [e] != Relay(target, received);
  }
}
