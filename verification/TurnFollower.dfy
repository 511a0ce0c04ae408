/**
Following an attached Turn to its end over live events, sequence gaps, lost
connections and durable reads.
*/
module TurnFollower {
  import opened Options
  import opened TurnEvents

  const MAX_EVENT_RECONNECTS: nat := 3
  const MAX_RECONCILIATION_ATTEMPTS: nat := 3

  /** What the surroundings answer when the follower waits for them. */
  datatype Answer =
    | Arrives(event: Event)        // the stream brings an event
    | Lost(recoverable: bool)      // the stream fails
    | Tick                         // the reconciliation clock fires first
    | Ready(events: seq<Event>)    // events already there when the stream is drained
    | DrainFailed
    | Connected                    // a new stream is subscribed
    | Refused(recoverable: bool)
    | Read(answer: ReadAnswer)     // a durable read

  /** What the follower waits for: the stream, a durable read, a new
      connection, or the drain of what the stream already holds. */
  datatype Question = Stream | Durable | Connection | Drain

  predicate Answers(q: Question, a: Answer) {
    match q
    case Stream => a.Arrives? || a.Lost? || a.Tick?
    case Durable => a.Read?
    case Connection => a.Connected? || a.Refused?
    case Drain => a.Ready? || a.DrainFailed?
  }

  /** Something handed to the caller: an event, or a terminal made from a durable read. */
  datatype Delivery = Pass(event: Event) | Synthetic(kind: EventType, revision: nat) {
    predicate IsTerminal() {
      Terminal(if Pass? then event.kind else kind)
    }
  }

  /** The session that ended the Turn, and which answer proved it. */
  datatype Verdict = Verdict(session: Session, turn: Turn, proof: nat)

  datatype Outcome =
    | Finished(verdict: Verdict)
    | GaveUp(code: Code)
    | OutputRefused                // the caller refused a delivery
    | Unfinished(asked: Question)  // the script does not answer what is waited for

  datatype Next = Continue | Stop(outcome: Outcome)

  /** The last event taken up: at which position, and whether durable reads have
      to close a gap before it and to confirm it. */
  datatype Taken = Taken(from: nat, gap: bool, confirm: bool) {
    function Reading(): nat {
      if gap then from + 1 else from
    }

    function Due(): nat {
      if confirm then Reading() + 1 else Reading()
    }
  }

  datatype State = State(
    used: nat,
    buffered: seq<Event>,
    received: seq<Event>,
    delivered: seq<Delivery>,
    highest: Option<nat>,
    previous: nat,
    reconnects: nat,
    connects: nat,
    pending: Option<Verdict>,
    at: Taken)

  // --------------------------------------------------------------- bookkeeping

  function EventsOf(a: Answer): seq<Event> {
    match a
    case Arrives(e) => [e]
    case Ready(events) => events
    case _ => []
  }

  /** All events the first n answers brought. */
  function EventsIn(script: seq<Answer>, n: nat): seq<Event>
    requires n <= |script|
  {
    if n == 0 then [] else EventsIn(script, n - 1) + EventsOf(script[n - 1])
  }

  function ConnectsIn(script: seq<Answer>, n: nat): nat
    requires n <= |script|
  {
    if n == 0 then 0 else
    ConnectsIn(script, n - 1) + if script[n - 1].Connected? || script[n - 1].Refused? then 1 else 0
  }

  function Passes(events: seq<Event>): seq<Delivery> {
    seq(|events|, i requires 0 <= i < |events| => Pass(events[i]))
  }

  lemma {:induction false} PassesMore(events: seq<Event>, e: Event)
    ensures Passes(events + [e]) == Passes(events) + [Pass(e)]
  {
  }

  predicate NoTerminal(deliveries: seq<Delivery>) {
    forall i :: 0 <= i < |deliveries| ==> !deliveries[i].IsTerminal()
  }

  /** The answer at `proof` is a durable read of the ended Turn, with its log entry. */
  predicate Proven(target: Target, script: seq<Answer>, used: nat, v: Verdict) {
    && v.proof < used <= |script| && script[v.proof].Read?
    && Reconcile(script[v.proof].answer, target, None) == Ended(v.session, v.turn)
  }

  /** A proven verdict is durable: the Turn it names is the target's, in a
      terminal state, and the log holds an entry at exactly its revision. */
  lemma {:induction false} ProvenIsDurable(target: Target, script: seq<Answer>, used: nat, v: Verdict)
    requires Proven(target, script, used, v)
    ensures v.turn.id == target.turn && v.turn in v.session.turns && TerminalKind(v.turn.state).Some?
    ensures var log := script[v.proof].answer.log; log.Logged? && LogsRevision(log.lines, v.session, v.turn)
  {
    FindTurnFinds(v.session.turns, target.turn);
  }

  lemma {:induction false} FindTurnFinds(turns: seq<Turn>, id: string)
    requires FindTurn(turns, id).Some?
    ensures FindTurn(turns, id).value in turns && FindTurn(turns, id).value.id == id
  {
    if turns[0].id != id { FindTurnFinds(turns[1..], id); }
  }

  /** What holds whenever the follower is about to wait. */
  ghost predicate Good(target: Target, script: seq<Answer>, s: State) {
    && s.used <= |script|
    && s.delivered == Passes(Relay(target, s.received)) && NoTerminal(s.delivered)
    && s.highest == Highest(target, Relay(target, s.received))
    && s.reconnects <= MAX_EVENT_RECONNECTS && s.connects <= 3 * |s.received| + s.reconnects
    && (s.pending.Some? ==> Proven(target, script, s.used, s.pending.value))
    && s.at.Due() <= s.used
  }

  /** The connection count and the events received agree with the answers used. */
  predicate Accounts(begin: seq<Event>, script: seq<Answer>, s: State) {
    && s.used <= |script|
    && s.received + s.buffered == begin + EventsIn(script, s.used)
    && s.connects == ConnectsIn(script, s.used)
  }

  /** Only durable reads lie between two positions of the script. */
  predicate OnlyReads(script: seq<Answer>, a: nat, b: nat)
    requires b <= |script|
  {
    a <= b && forall i :: a <= i < b ==> script[i].Read?
  }

  lemma {:induction false} ReadsBringNothing(script: seq<Answer>, a: nat, b: nat)
    requires a <= b <= |script| && OnlyReads(script, a, b)
    ensures EventsIn(script, b) == EventsIn(script, a) && ConnectsIn(script, b) == ConnectsIn(script, a)
    decreases b
  {
    if a < b {
      ReadsBringNothing(script, a, b - 1);
      assert EventsIn(script, b - 1) + [] == EventsIn(script, b - 1);
    }
  }

  // ------------------------------------------------------------------- deliveries

  /** Hands one delivery to the caller, who may refuse it. */
  method Deliver(s: State, d: Delivery, refuses: nat -> bool) returns (ok: bool, t: State)
    ensures t == s.(delivered := s.delivered + [d]) && ok == !refuses(|s.delivered|)
  {
    ok, t := !refuses(|s.delivered|), s.(delivered := s.delivered + [d]);
  }

  /** The Turn ended: one terminal was delivered, last, matching the durable
      state; everything before it is exactly what relaying passes on. */
  ghost predicate EndedWell(target: Target, script: seq<Answer>, s: State, v: Verdict) {
    var relayed := Passes(Relay(target, s.received));
    && Proven(target, script, s.used, v)
    && (|| s.delivered == relayed + [Synthetic(TerminalKind(v.turn.state).value, v.turn.revision)]
        || (s.delivered == relayed && relayed != [] && PassesTerminal(target, relayed[|relayed| - 1], v)))
    && NoTerminal(s.delivered[..|s.delivered| - 1])
  }

  /** A relayed event is the terminal of the verdict, at no later revision. */
  ghost predicate PassesTerminal(target: Target, d: Delivery, v: Verdict) {
    && d.Pass? && Some(d.event.kind) == TerminalKind(v.turn.state)
    && TargetRevision(d.event, target).Some? && TargetRevision(d.event, target).value <= v.turn.revision
  }

  /** Whatever happened, a terminal can only be the last delivery. */
  ghost predicate TerminalOnlyLast(s: State) {
    s.delivered != [] ==> NoTerminal(s.delivered[..|s.delivered| - 1])
  }

  // ----------------------------------------------------------------- durable reads

  /** The script has no answer to what is waited for. */
  predicate Unanswered(script: seq<Answer>, used: nat, q: Question) {
    used == |script| || (used < |script| && !Answers(q, script[used]))
  }

  /** A durable read as the follower uses it. */
  datatype Checked = Over(verdict: Verdict) | Alive | Problem(code: Code) | Silent

  /** What the durable read at `at` means for the follower. */
  predicate Says(target: Target, script: seq<Answer>, at: nat, minimum: Option<nat>, r: Checked) {
    && at < |script| && script[at].Read?
    && match Reconcile(script[at].answer, target, minimum)
       case Ended(session, turn) => r == Over(Verdict(session, turn, at))
       case Active => r == Alive
       case Error(code) => r == Problem(code)
  }

  /** One durable read. */
  method Check(target: Target, script: seq<Answer>, at: nat, minimum: Option<nat>) returns (r: Checked, used: nat)
    requires at <= |script|
    ensures if r.Silent? then used == at && Unanswered(script, at, Durable) else used == at + 1 && Says(target, script, at, minimum, r)
    ensures used <= |script| && OnlyReads(script, at, used)
    ensures r.Over? ==> Proven(target, script, used, r.verdict)
    ensures r.Over? && minimum.Some? ==> minimum.value <= r.verdict.turn.revision
  {
    if at == |script| || !script[at].Read? { return Silent, at; }
    used := at + 1;
    match Reconcile(script[at].answer, target, minimum)
    case Ended(session, turn) => r := Over(Verdict(session, turn, at));
    case Active => r := Alive;
    case Error(code) => r := Problem(code);
  }

  /** Durable reads that all found the Host unreachable. */
  predicate Unreachable(target: Target, script: seq<Answer>, a: nat, b: nat, minimum: Option<nat>) {
    a <= b <= |script| && forall i :: a <= i < b ==> Says(target, script, i, minimum, Problem(HostUnreachable))
  }

  /** Durable reads repeated while the Host is unreachable. */
  method CheckRetaining(target: Target, script: seq<Answer>, at: nat, minimum: Option<nat>)
    returns (r: Checked, used: nat, attempts: nat)
    requires at <= |script|
    ensures 1 <= attempts <= 3 && Unreachable(target, script, at, at + attempts - 1, minimum)
    ensures if r.Silent? then used == at + attempts - 1 && Unanswered(script, used, Durable)
      else used == at + attempts && Says(target, script, used - 1, minimum, r)
    ensures r == Problem(HostUnreachable) ==> attempts == 3
    ensures at <= used <= |script| && OnlyReads(script, at, used)
    ensures r.Over? ==> Proven(target, script, used, r.verdict)
    ensures r.Over? && minimum.Some? ==> minimum.value <= r.verdict.turn.revision
  {
    attempts, used := 1, at;
    while true
      invariant at <= used <= |script| && OnlyReads(script, at, used)
      invariant 1 <= attempts <= MAX_RECONCILIATION_ATTEMPTS && used == at + attempts - 1
      invariant Unreachable(target, script, at, used, minimum)
      decreases MAX_RECONCILIATION_ATTEMPTS - attempts
    {
      r, used := Check(target, script, used, minimum);
      if r != Problem(HostUnreachable) || attempts >= MAX_RECONCILIATION_ATTEMPTS { return; }
      attempts := attempts + 1;
    }
  }

  // ---------------------------------------------------------------- one event

  /** No relayed event has a later revision than the durable end. */
  ghost predicate Covered(target: Target, s: State, v: Verdict) {
    var highest := Highest(target, Relay(target, s.received));
    highest.Some? ==> highest.value <= v.turn.revision
  }

  /** The last answer was a durable read. */
  predicate JustRead(script: seq<Answer>, used: nat) {
    0 < used <= |script| && script[used - 1].Read?
  }

  function MinimumFor(highest: Option<nat>, revision: Option<nat>): Option<nat> {
    if revision.Some? then Some(Max(highest, revision.value)) else highest
  }

  /** The event is confirmed by a durable read of its own. */
  predicate Confirmed(e: Event) {
    Terminal(e.kind) || (e.kind == ActionRequired && e.recovery)
  }

  /** The state in which the follower faces an event it has just received. */
  function Received(target: Target, s: State, e: Event): State {
    s.(received := s.received + [e], reconnects := 0, previous := e.sequence,
       at := Taken(s.used, !Exempt(e.kind) && s.previous != 0 && e.sequence > s.previous + 1,
                   !Exempt(e.kind) && Relayed(e, target, s.highest) && Confirmed(e)))
  }

  // ------------------------------------------------------- where a run stands

  /** What the answers so far make of the run: it waits, gives up, or is over. */
  datatype Stand = Waits(question: Question) | Fails(code: Code) | Ends(verdict: Verdict)

  /** The event at hand asks for durable reads, and nothing else came after it. */
  predicate InEvent(script: seq<Answer>, s: State) {
    && s.received != [] && s.at.from < s.at.Due()
    && s.at.from <= s.used <= s.at.Due() && s.used <= |script| && OnlyReads(script, s.at.from, s.used)
  }

  /** What the last durable read says about the event at hand, which must not be ahead of it. */
  function FoundForEvent(target: Target, script: seq<Answer>, s: State): Reconciled
    requires s.received != [] && JustRead(script, s.used)
  {
    var e := s.received[|s.received| - 1];
    Reconcile(script[s.used - 1].answer, target, MinimumFor(s.highest, TargetRevision(e, target)))
  }

  /** While the reads of an event are made: a gap must be closed before the event
      is confirmed, and a terminal event must agree with the durable state. */
  function DuringEvent(target: Target, script: seq<Answer>, s: State): Stand
    requires InEvent(script, s)
  {
    var e := s.received[|s.received| - 1];
    var ending := s.at.confirm && Terminal(e.kind);
    if s.used == s.at.from then Waits(Durable) else
    match FoundForEvent(target, script, s)
    case Error(code) => Fails(code)
    case Active =>
      if s.used < s.at.Due() then Waits(Durable) else if ending then Fails(InvalidResponse) else Waits(Stream)
    case Ended(session, turn) =>
      if ending && TerminalKind(turn.state) != Some(e.kind) then Fails(InvalidResponse)
      else if ending || s.used == s.at.Reading() then Ends(Verdict(session, turn, s.used - 1))
      else Waits(Stream)
  }

  /** The durable read after a connection or a tick is repeated while the Host is unreachable. */
  predicate Repeated(found: Reconciled, attempts: nat) {
    found == Error(HostUnreachable) && attempts < MAX_RECONCILIATION_ATTEMPTS
  }

  /** After answer k - 1 and only durable reads since. */
  function SinceAnswer(target: Target, script: seq<Answer>, s: State, k: nat): Stand
    requires 0 < k <= s.used <= |script| && OnlyReads(script, k, s.used)
  {
    var again := s.reconnects < MAX_EVENT_RECONNECTS;
    match script[k - 1]
    case Lost(recoverable) => if recoverable && again then Waits(Connection) else Fails(EventStreamLost)
    case Refused(recoverable) =>
      if !recoverable then Fails(EventStreamLost) else if s.used == k then Waits(Durable) else
      (match Reconcile(script[s.used - 1].answer, target, s.highest)
       case Ended(session, turn) => Ends(Verdict(session, turn, s.used - 1))
       case Active => if again then Waits(Connection) else Fails(EventStreamLost)
       case Error(code) => if again && code == HostUnreachable then Waits(Connection) else Fails(code))
    case Connected =>
      if s.used == k then Waits(Durable) else
      var found := Reconcile(script[s.used - 1].answer, target, s.highest);
      if Repeated(found, s.used - k) then Waits(Durable) else
      (match found
       case Ended(session, turn) => Ends(Verdict(session, turn, s.used - 1))
       case Active => Waits(Stream)
       case Error(code) => Fails(code))
    case Tick =>
      if s.used == k then Waits(Durable) else
      var found := Reconcile(script[s.used - 1].answer, target, s.highest);
      if Repeated(found, s.used - k) then Waits(Durable) else
      (match found
       case Ended(_, _) => Waits(Drain)
       case Active => Waits(Stream)
       case Error(code) => if code == HostUnreachable then Waits(Stream) else Fails(code))
    case _ => Waits(Stream)
  }

  /** The position after the last answer that is not a durable read. */
  function Start(script: seq<Answer>, n: nat): (k: nat)
    requires n <= |script|
    ensures k <= n && OnlyReads(script, k, n) && (k > 0 ==> !script[k - 1].Read?)
  {
    if n == 0 || !script[n - 1].Read? then n else Start(script, n - 1)
  }

  /** Where the run stands, from the event at hand and the answers used. */
  function Standing(target: Target, script: seq<Answer>, s: State): Stand
    requires s.used <= |script|
  {
    if InEvent(script, s) then DuringEvent(target, script, s) else
    var k := Start(script, s.used);
    if k == 0 then Waits(Stream) else SinceAnswer(target, script, s, k)
  }

  lemma {:induction false} StartIs(script: seq<Answer>, k: nat, n: nat)
    requires k <= n <= |script| && OnlyReads(script, k, n) && (k == 0 || !script[k - 1].Read?)
    ensures Start(script, n) == k
    decreases n
  {
    if k < n { StartIs(script, k, n - 1); }
  }

  /** Past the reads of the last event, the last other answer decides. */
  lemma {:induction false} StandsSince(target: Target, script: seq<Answer>, s: State, k: nat)
    requires s.at.Due() < s.used <= |script| || (s.used <= |script| && s.at.from == s.at.Due())
    requires 0 < k <= s.used && OnlyReads(script, k, s.used) && !script[k - 1].Read?
    ensures Standing(target, script, s) == SinceAnswer(target, script, s, k)
  {
    StartIs(script, k, s.used);
  }

  /** Nothing but events and their reads came last. */
  predicate Calm(script: seq<Answer>, n: nat) {
    n <= |script| && (Start(script, n) == 0 || EventsMayFollow(script[Start(script, n) - 1]))
  }

  predicate EventsMayFollow(a: Answer) {
    a.Arrives? || a.Ready? || a.DrainFailed?
  }

  lemma {:induction false} CalmWaits(target: Target, script: seq<Answer>, s: State)
    requires Calm(script, s.used) && s.at.from == s.at.Due()
    ensures Standing(target, script, s) == Waits(Stream)
  {
  }

  lemma {:induction false} CalmReads(script: seq<Answer>, a: nat, b: nat)
    requires Calm(script, a) && a <= b <= |script| && OnlyReads(script, a, b)
    ensures Calm(script, b)
  {
    StartIs(script, Start(script, a), b);
  }

  // ------------------------------------------------------ how a run ends

  /** The caller took the first n deliveries. */
  predicate Accepted(refuses: nat -> bool, n: nat) {
    forall i: nat :: i < n ==> !refuses(i)
  }

  /** Where a run that ends with this outcome stands.  A refused delivery was the
      terminal of a verdict, or an event, before it was confirmed. */
  predicate Explained(target: Target, script: seq<Answer>, s: State, outcome: Outcome) {
    s.used <= |script| &&
    var stand := Standing(target, script, s);
    var late := s.buffered == [] && s.pending.Some? && stand == Waits(Stream);
    match outcome
    case Finished(v) => stand == Ends(v) || (late && s.pending == Some(v))
    case GaveUp(code) => stand == Fails(code)
    case Unfinished(q) =>
      stand == Waits(q) && Unanswered(script, s.used, q) && (q == Stream ==> s.buffered == [] && s.pending.None?)
    case OutputRefused =>
      s.delivered != [] &&
      if s.delivered[|s.delivered| - 1].IsTerminal() then stand.Ends? || late else s.used == s.at.Reading()
  }

  /** Everything received has been relayed, except perhaps the event at hand. */
  ghost predicate RelayedSoFar(target: Target, s: State) {
    || s.delivered == Passes(Relay(target, s.received))
    || (s.received != [] && s.delivered == Passes(Relay(target, s.received[..|s.received| - 1])))
  }

  /** How a step that ends the run leaves things. */
  ghost predicate Concluded(target: Target, script: seq<Answer>, s: State, outcome: Outcome, refuses: nat -> bool) {
    && TerminalOnlyLast(s) && Explained(target, script, s, outcome)
    && match outcome
       case Finished(v) => EndedWell(target, script, s, v) && Accepted(refuses, |s.delivered|)
       case OutputRefused => Accepted(refuses, |s.delivered| - 1) && refuses(|s.delivered| - 1)
       case _ => NoTerminal(s.delivered) && RelayedSoFar(target, s) && Accepted(refuses, |s.delivered|)
  }

  /** A relayed event that is not terminal, or the terminal a verdict confirms. */
  method PassOn(target: Target, s: State, e: Event, refuses: nat -> bool) returns (ok: bool, t: State)
    requires s.received != [] && e == s.received[|s.received| - 1]
    requires s.delivered == Passes(Relay(target, s.received[..|s.received| - 1])) && NoTerminal(s.delivered)
    requires Relayed(e, target, Highest(target, Relay(target, s.received[..|s.received| - 1])))
    ensures t == s.(delivered := Passes(Relay(target, s.received)))
    ensures t.delivered == s.delivered + [Pass(e)] && TerminalOnlyLast(t)
    ensures ok == !refuses(|s.delivered|)
    ensures !Terminal(e.kind) ==> NoTerminal(t.delivered)
  {
    PassesMore(Relay(target, s.received[..|s.received| - 1]), e);
    ok, t := Deliver(s, Pass(e), refuses);
    assert t.delivered[..|t.delivered| - 1] == s.delivered;
  }

  lemma {:induction false} RelayLast(target: Target, received: seq<Event>)
    requires received != []
    ensures var before, e := received[..|received| - 1], received[|received| - 1];
      var relayed := Relay(target, before); var highest := Highest(target, relayed);
      && Relay(target, received) == (if Relayed(e, target, highest) then relayed + [e] else relayed)
      && (!Exempt(e.kind) && Relayed(e, target, highest) ==>
          Highest(target, Relay(target, received)) == Some(Max(highest, TargetRevision(e, target).value)))
      && (Exempt(e.kind) || !Relayed(e, target, highest) ==> Highest(target, Relay(target, received)) == highest)
  {
    var before, e := received[..|received| - 1], received[|received| - 1];
    assert received == before + [e];
    HighestMore(target, Relay(target, before), e);
  }

  /** The event just received, with everything before it already dealt with. */
  ghost predicate Facing(target: Target, script: seq<Answer>, s: State, e: Event) {
    && s.used <= |script| && s.received != [] && e == s.received[|s.received| - 1]
    && s.delivered == Passes(Relay(target, s.received[..|s.received| - 1])) && NoTerminal(s.delivered)
    && s.highest == Highest(target, Relay(target, s.received[..|s.received| - 1]))
    && s.at.confirm == (!Exempt(e.kind) && Relayed(e, target, s.highest) && Confirmed(e))
  }

  /** The outcome of a step and where it leaves the follower. */
  ghost predicate Closes(target: Target, script: seq<Answer>, s: State, outcome: Outcome, t: State, refuses: nat -> bool) {
    && t == s.(used := t.used, delivered := t.delivered, highest := t.highest)
    && (t.highest == s.highest || t.highest == Highest(target, Relay(target, s.received)))
    && Concluded(target, script, t, outcome, refuses)
    && (outcome.Finished? ==> Covered(target, t, outcome.verdict))
  }

  lemma {:induction false} PassedLast(target: Target, received: seq<Event>)
    requires received != []
    requires Relayed(received[|received| - 1], target, Highest(target, Relay(target, received[..|received| - 1])))
    ensures var all, before := Passes(Relay(target, received)), Passes(Relay(target, received[..|received| - 1]));
      all == before + [Pass(received[|received| - 1])]
  {
    PassesMore(Relay(target, received[..|received| - 1]), received[|received| - 1]);
  }

  /** A relayed event is the highest so far, so what covers it covers all. */
  lemma {:induction false} RelayedCovers(target: Target, script: seq<Answer>, s: State, e: Event, v: Verdict)
    requires Facing(target, script, s, e) && !Exempt(e.kind) && Relayed(e, target, s.highest)
    requires TargetRevision(e, target).value <= v.turn.revision
    ensures Covered(target, s, v)
  {
    RelayLast(target, s.received);
  }

  lemma {:induction false} EndsByPassing(target: Target, script: seq<Answer>, t: State, before: seq<Delivery>, e: Event, v: Verdict)
    requires Proven(target, script, t.used, v) && PassesTerminal(target, Pass(e), v) && NoTerminal(before)
    requires t.delivered == Passes(Relay(target, t.received)) == before + [Pass(e)]
    ensures EndedWell(target, script, t, v) && TerminalOnlyLast(t)
  {
    assert t.delivered[..|t.delivered| - 1] == before && t.delivered[|t.delivered| - 1] == Pass(e);
  }

  /** Passing on the terminal event that the verdict confirms ends the Turn well. */
  lemma {:induction false} TerminalPassed(target: Target, script: seq<Answer>, s: State, e: Event, v: Verdict)
    requires Facing(target, script, s, e) && Terminal(e.kind) && Relayed(e, target, s.highest)
    requires Proven(target, script, s.used, v) && TerminalKind(v.turn.state) == Some(e.kind)
    requires TargetRevision(e, target).value <= v.turn.revision
    ensures var t := s.(delivered := Passes(Relay(target, s.received)));
      EndedWell(target, script, t, v) && Covered(target, t, v) && TerminalOnlyLast(t)
  {
    PassedLast(target, s.received);
    EndsByPassing(target, script, s.(delivered := Passes(Relay(target, s.received))), s.delivered, e, v);
    RelayedCovers(target, script, s, e, v);
  }

  lemma {:induction false} SyntheticCovers(target: Target, script: seq<Answer>, s: State, e: Event, v: Verdict)
    requires Facing(target, script, s, e) && !Exempt(e.kind)
    requires var minimum := MinimumFor(s.highest, TargetRevision(e, target)); minimum.Some? ==> minimum.value <= v.turn.revision
    ensures Covered(target, s, v)
  {
    RelayLast(target, s.received);
  }

  /** Makes up the terminal that a durable read proves. */
  method DeliverSynthetic(target: Target, script: seq<Answer>, s: State, v: Verdict, refuses: nat -> bool)
    returns (outcome: Outcome, t: State)
    requires s.used <= |script| && s.delivered == Passes(Relay(target, s.received)) && NoTerminal(s.delivered)
    requires Proven(target, script, s.used, v) && Accepted(refuses, |s.delivered|)
    requires Explained(target, script, s, Finished(v))
    ensures t == s.(delivered := s.delivered + [Synthetic(TerminalKind(v.turn.state).value, v.turn.revision)])
    ensures outcome == if refuses(|s.delivered|) then OutputRefused else Finished(v)
    ensures Concluded(target, script, t, outcome, refuses)
  {
    ProvenIsDurable(target, script, s.used, v);
    var ok;
    ok, t := Deliver(s, Synthetic(TerminalKind(v.turn.state).value, v.turn.revision), refuses);
    outcome := if ok then Finished(v) else OutputRefused;
    EndsByMaking(target, script, s, t, v);
    MakingConcludes(target, script, s, t, v, outcome, refuses);
  }

  lemma {:induction false} EndsByMaking(target: Target, script: seq<Answer>, s: State, t: State, v: Verdict)
    requires s.delivered == Passes(Relay(target, s.received)) && NoTerminal(s.delivered) && Proven(target, script, s.used, v)
    requires TerminalKind(v.turn.state).Some?
    requires t == s.(delivered := s.delivered + [Synthetic(TerminalKind(v.turn.state).value, v.turn.revision)])
    ensures EndedWell(target, script, t, v) && TerminalOnlyLast(t) && t.delivered[|s.delivered|].IsTerminal()
  {
    assert t.delivered[..|t.delivered| - 1] == s.delivered;
  }

  lemma {:induction false} MakingConcludes(
    target: Target, script: seq<Answer>, s: State, t: State, v: Verdict, outcome: Outcome, refuses: nat -> bool)
    requires Explained(target, script, s, Finished(v)) && Accepted(refuses, |s.delivered|)
    requires t == s.(delivered := t.delivered) && |t.delivered| == |s.delivered| + 1 && t.delivered[|s.delivered|].IsTerminal()
    requires EndedWell(target, script, t, v) && TerminalOnlyLast(t)
    requires outcome == if refuses(|s.delivered|) then OutputRefused else Finished(v)
    ensures Concluded(target, script, t, outcome, refuses)
  {
    StandsAlike(target, script, s, t);
  }

  /** Standing does not depend on what was delivered, nor on the buffer and the counts of connections. */
  lemma {:induction false} StandsAlike(target: Target, script: seq<Answer>, s: State, t: State)
    requires s.used == t.used <= |script| && s.received == t.received && s.highest == t.highest
    requires s.reconnects == t.reconnects && s.at == t.at
    ensures Standing(target, script, s) == Standing(target, script, t)
  {
  }

  /** A verdict on the event at hand is proven, and not behind what was relayed. */
  lemma {:induction false} EventVerdict(target: Target, script: seq<Answer>, s: State, session: Session, turn: Turn)
    requires s.received != [] && JustRead(script, s.used) && FoundForEvent(target, script, s) == Ended(session, turn)
    ensures Proven(target, script, s.used, Verdict(session, turn, s.used - 1))
    ensures var minimum := MinimumFor(s.highest, TargetRevision(s.received[|s.received| - 1], target));
      minimum.Some? ==> minimum.value <= turn.revision
  {
  }

  /** Facing an event for which the last read found the Turn over. */
  ghost predicate Ruled(target: Target, script: seq<Answer>, s: State, e: Event, v: Verdict) {
    && Facing(target, script, s, e) && InEvent(script, s) && JustRead(script, s.used) && s.at.from < s.used
    && FoundForEvent(target, script, s) == Ended(v.session, v.turn) && v.proof == s.used - 1
  }

  lemma {:induction false} TerminalStands(target: Target, script: seq<Answer>, s: State, e: Event, v: Verdict)
    requires Ruled(target, script, s, e, v) && Terminal(e.kind) && s.at.confirm
    ensures Standing(target, script, s) == if TerminalKind(v.turn.state) != Some(e.kind) then Fails(InvalidResponse) else Ends(v)
  {
  }

  /** The delivery of the terminal that ends the run well. */
  lemma {:induction false} DeliveredCloses(
    target: Target, script: seq<Answer>, s: State, t: State, v: Verdict, outcome: Outcome, refuses: nat -> bool)
    requires s.used <= |script| && Standing(target, script, s) == Ends(v) && Accepted(refuses, |s.delivered|)
    requires t == s.(delivered := t.delivered) && |t.delivered| == |s.delivered| + 1 && t.delivered[|s.delivered|].IsTerminal()
    requires EndedWell(target, script, t, v) && Covered(target, t, v) && TerminalOnlyLast(t)
    requires outcome == if refuses(|s.delivered|) then OutputRefused else Finished(v)
    ensures Closes(target, script, s, outcome, t, refuses)
  {
    StandsAlike(target, script, s, t);
  }

  lemma {:induction false} TerminalCloses(
    target: Target, script: seq<Answer>, s: State, e: Event, v: Verdict, outcome: Outcome, refuses: nat -> bool)
    requires Facing(target, script, s, e) && Terminal(e.kind) && Relayed(e, target, s.highest)
    requires Standing(target, script, s) == Ends(v) && Proven(target, script, s.used, v) && Accepted(refuses, |s.delivered|)
    requires TerminalKind(v.turn.state) == Some(e.kind) && TargetRevision(e, target).value <= v.turn.revision
    requires outcome == if refuses(|s.delivered|) then OutputRefused else Finished(v)
    ensures Closes(target, script, s, outcome, s.(delivered := Passes(Relay(target, s.received))), refuses)
  {
    TerminalPassed(target, script, s, e, v);
    PassedLast(target, s.received);
    DeliveredCloses(target, script, s, s.(delivered := Passes(Relay(target, s.received))), v, outcome, refuses);
  }

  /** Passes on the terminal event that the verdict confirms. */
  method PassTerminal(target: Target, script: seq<Answer>, s: State, e: Event, v: Verdict, refuses: nat -> bool)
    returns (outcome: Outcome, t: State)
    requires Facing(target, script, s, e) && Terminal(e.kind) && Relayed(e, target, s.highest)
    requires Standing(target, script, s) == Ends(v) && Proven(target, script, s.used, v) && Accepted(refuses, |s.delivered|)
    requires TerminalKind(v.turn.state) == Some(e.kind) && TargetRevision(e, target).value <= v.turn.revision
    ensures t.used == s.used && Closes(target, script, s, outcome, t, refuses)
    ensures outcome == if refuses(|s.delivered|) then OutputRefused else Finished(v)
  {
    var ok;
    ok, t := PassOn(target, s, e, refuses);
    outcome := if ok then Finished(v) else OutputRefused;
    TerminalCloses(target, script, s, e, v, outcome, refuses);
  }

  /** Passes on the terminal event at hand if the verdict agrees with it. */
  method EndWithVerdict(target: Target, script: seq<Answer>, s: State, e: Event, v: Verdict, refuses: nat -> bool)
    returns (outcome: Outcome, t: State)
    requires Ruled(target, script, s, e, v) && Terminal(e.kind) && s.at.confirm && Relayed(e, target, s.highest)
    requires Accepted(refuses, |s.delivered|)
    ensures t.used == s.used && Closes(target, script, s, outcome, t, refuses)
    ensures outcome == if TerminalKind(v.turn.state) != Some(e.kind) then GaveUp(InvalidResponse)
      else if refuses(|s.delivered|) then OutputRefused else Finished(v)
  {
    TerminalStands(target, script, s, e, v);
    if TerminalKind(v.turn.state) != Some(e.kind) {
      FacingCloses(target, script, s, e, s.used, GaveUp(InvalidResponse), refuses);
      return GaveUp(InvalidResponse), s;
    }
    EventVerdict(target, script, s, v.session, v.turn);
    outcome, t := PassTerminal(target, script, s, e, v, refuses);
  }

  /** Passes on an event that is not terminal, if it is to be relayed at all. */
  method PassIfRelayed(target: Target, script: seq<Answer>, s: State, e: Event, refuses: nat -> bool)
    returns (ok: bool, t: State)
    requires Facing(target, script, s, e) && !Exempt(e.kind) && (Relayed(e, target, s.highest) ==> !Terminal(e.kind))
    requires Accepted(refuses, |s.delivered|)
    ensures t == s.(delivered := Passes(Relay(target, s.received))) && NoTerminal(t.delivered)
    ensures if ok then Accepted(refuses, |t.delivered|)
      else t.delivered != [] && Accepted(refuses, |t.delivered| - 1) && refuses(|t.delivered| - 1)
  {
    ok, t := true, s;
    if Relayed(e, target, s.highest) {
      ok, t := PassOn(target, s, e, refuses);
    } else {
      RelayLast(target, s.received);
    }
  }

  lemma {:induction false} RefusedCloses(target: Target, script: seq<Answer>, s: State, t: State, refuses: nat -> bool)
    requires t == s.(delivered := t.delivered, highest := t.highest) && t.used == t.at.Reading() <= |script|
    requires t.highest == s.highest || t.highest == Highest(target, Relay(target, s.received))
    requires t.delivered != [] && NoTerminal(t.delivered) && Accepted(refuses, |t.delivered| - 1) && refuses(|t.delivered| - 1)
    ensures Closes(target, script, s, OutputRefused, t, refuses)
  {
  }

  /** A gap behind which the Turn is over ends the run, unless the event contradicts it. */
  lemma {:induction false} GapStands(target: Target, script: seq<Answer>, s: State, e: Event, v: Verdict)
    requires Ruled(target, script, s, e, v) && !Exempt(e.kind) && s.at.gap && s.used == s.at.Reading()
    requires !(s.at.confirm && Terminal(e.kind))
    ensures Standing(target, script, s) == Ends(v) && Proven(target, script, s.used, v) && Covered(target, s, v)
    ensures Relayed(e, target, s.highest) ==> !Terminal(e.kind)
  {
    EventVerdict(target, script, s, v.session, v.turn);
    SyntheticCovers(target, script, s, e, v);
  }

  lemma {:induction false} SyntheticCloses(
    target: Target, script: seq<Answer>, s: State, v: Verdict, outcome: Outcome, t: State, refuses: nat -> bool)
    requires t == s.(delivered := t.delivered) && Covered(target, s, v) && Concluded(target, script, t, outcome, refuses)
    requires outcome.Finished? ==> outcome.verdict == v
    ensures Closes(target, script, s, outcome, t, refuses)
  {
  }

  /** The Turn is over after a gap: the event at hand goes first if it may,
      and a terminal is made up unless the event is it. */
  method EndAfterGap(target: Target, script: seq<Answer>, s: State, e: Event, v: Verdict, refuses: nat -> bool)
    returns (outcome: Outcome, t: State)
    requires Ruled(target, script, s, e, v) && !Exempt(e.kind) && s.at.gap && s.used == s.at.Reading()
    requires Accepted(refuses, |s.delivered|)
    ensures t.used == s.used && Closes(target, script, s, outcome, t, refuses)
    ensures outcome.GaveUp? <==> s.at.confirm && Terminal(e.kind) && TerminalKind(v.turn.state) != Some(e.kind)
    ensures !outcome.Unfinished? && (outcome.Finished? ==> outcome.verdict == v)
  {
    if s.at.confirm && Terminal(e.kind) {
      outcome, t := EndWithVerdict(target, script, s, e, v, refuses);
      return;
    }
    GapStands(target, script, s, e, v);
    var ok;
    ok, t := PassIfRelayed(target, script, s, e, refuses);
    if ok {
      StandsAlike(target, script, s, t);
      outcome, t := DeliverSynthetic(target, script, t, v, refuses);
      SyntheticCloses(target, script, s, v, outcome, t, refuses);
    } else {
      RefusedCloses(target, script, s, t, refuses);
      outcome := OutputRefused;
    }
  }

  /** Nothing was delivered for the event at hand, and the run cannot go on. */
  lemma {:induction false} FacingCloses(
    target: Target, script: seq<Answer>, s: State, e: Event, used: nat, outcome: Outcome, refuses: nat -> bool)
    requires Facing(target, script, s, e) && Accepted(refuses, |s.delivered|) && (outcome.GaveUp? || outcome.Unfinished?)
    requires Explained(target, script, s.(used := used), outcome)
    ensures Closes(target, script, s, outcome, s.(used := used), refuses)
  {
  }

  /** What one more durable read makes of the event at hand. */
  lemma {:induction false} ReadStands(target: Target, script: seq<Answer>, s: State, e: Event, r: Checked, used: nat)
    requires Awaiting(target, script, s, e) && s.used <= used <= |script|
    requires if r.Silent? then used == s.used
      else used == s.used + 1 && Says(target, script, s.used, MinimumFor(s.highest, TargetRevision(e, target)), r)
    ensures r.Silent? ==> Standing(target, script, s.(used := used)) == Waits(Durable)
    ensures r.Problem? ==> Standing(target, script, s.(used := used)) == Fails(r.code)
    ensures r.Alive? ==> FoundForEvent(target, script, s.(used := used)) == Active
    ensures r.Alive? && used == s.at.Due() && s.at.confirm && Terminal(e.kind) ==>
      Standing(target, script, s.(used := used)) == Fails(InvalidResponse)
    ensures r.Over? ==> Ruled(target, script, s.(used := used), e, r.verdict)
  {
  }

  /** The position of a durable read that the event at hand waits for. */
  ghost predicate Awaiting(target: Target, script: seq<Answer>, s: State, e: Event) {
    Facing(target, script, s, e) && InEvent(script, s) && DuringEvent(target, script, s) == Waits(Durable)
  }

  /** A gap in the sequence: one durable read decides whether the Turn is over. */
  method CloseGap(target: Target, script: seq<Answer>, s: State, e: Event, refuses: nat -> bool)
    returns (next: Next, t: State)
    requires Awaiting(target, script, s, e) && !Exempt(e.kind) && s.at.gap && s.used == s.at.from
    requires Accepted(refuses, |s.delivered|)
    ensures next == Stop(Unfinished(Durable)) <==> Unanswered(script, s.used, Durable)
    ensures t.used == if next == Stop(Unfinished(Durable)) then s.used else s.used + 1
    ensures t.used <= |script| && OnlyReads(script, s.used, t.used)
    ensures next.Continue? <==> t.used > s.used && FoundForEvent(target, script, s.(used := s.used + 1)) == Active
    ensures next.Continue? ==> t == s.(used := s.used + 1)
    ensures next.Stop? ==> Closes(target, script, s, next.outcome, t, refuses) && next.outcome != Unfinished(Stream)
  {
    var r, used := Check(target, script, s.used, MinimumFor(s.highest, TargetRevision(e, target)));
    t := s.(used := used);
    ReadStands(target, script, s, e, r, used);
    if r.Over? {
      var outcome;
      outcome, t := EndAfterGap(target, script, t, e, r.verdict, refuses);
      next := Stop(outcome);
    } else if r.Alive? {
      next := Continue;
    } else {
      next := Stop(if r.Silent? then Unfinished(Durable) else GaveUp(r.code));
      FacingCloses(target, script, s, e, used, next.outcome, refuses);
    }
  }

  /** A terminal event: it is passed on only if the durable state agrees. */
  method EndWith(target: Target, script: seq<Answer>, s: State, e: Event, revision: nat, refuses: nat -> bool)
    returns (outcome: Outcome, t: State)
    requires Awaiting(target, script, s, e) && Terminal(e.kind) && s.at.confirm && s.used == s.at.Reading()
    requires TargetRevision(e, target) == Some(revision) && Deliverable(e.kind, revision, s.highest)
    requires Accepted(refuses, |s.delivered|)
    ensures t.used == if Unanswered(script, s.used, Durable) then s.used else s.used + 1
    ensures t.used <= |script| && OnlyReads(script, s.used, t.used) && outcome != Unfinished(Stream)
    ensures Closes(target, script, s, outcome, t, refuses)
  {
    var r, used := Check(target, script, s.used, Some(revision));
    t := s.(used := used);
    ReadStands(target, script, s, e, r, used);
    if r.Over? {
      outcome, t := EndWithVerdict(target, script, t, e, r.verdict, refuses);
    } else {
      outcome := if r.Silent? then Unfinished(Durable) else GaveUp(if r.Problem? then r.code else InvalidResponse);
      FacingCloses(target, script, s, e, used, outcome, refuses);
    }
  }

  /** The event at hand has been dealt with: what relaying passes on has been delivered. */
  ghost predicate Relays(target: Target, s: State, t: State) {
    && t == s.(used := t.used, delivered := Passes(Relay(target, s.received)), highest := Highest(target, Relay(target, s.received)))
    && NoTerminal(t.delivered)
  }

  /** Passes on a deliverable event that does not end the Turn. */
  method PassBound(target: Target, script: seq<Answer>, s: State, e: Event, revision: nat, refuses: nat -> bool)
    returns (ok: bool, t: State)
    requires Facing(target, script, s, e) && !Exempt(e.kind) && !Terminal(e.kind)
    requires TargetRevision(e, target) == Some(revision) && Deliverable(e.kind, revision, s.highest)
    requires Accepted(refuses, |s.delivered|)
    ensures Relays(target, s, t) && t.used == s.used && t.highest == Some(Max(s.highest, revision))
    ensures t.delivered != [] && Accepted(refuses, |t.delivered| - 1) && ok == !refuses(|t.delivered| - 1)
  {
    RelayLast(target, s.received);
    ok, t := PassOn(target, s, e, refuses);
    t := t.(highest := Some(Max(s.highest, revision)));
  }

  lemma {:induction false} RelaysCloses(
    target: Target, script: seq<Answer>, s: State, t: State, outcome: Outcome, refuses: nat -> bool)
    requires Relays(target, s, t) && Accepted(refuses, |t.delivered|)
    requires (outcome.GaveUp? || outcome.Unfinished?) && Explained(target, script, t, outcome)
    ensures Closes(target, script, s, outcome, t, refuses)
  {
  }

  /** The Host announces recovery: confirmed by a durable read before going on. */
  method ConfirmRecovery(target: Target, script: seq<Answer>, s: State, e: Event, revision: nat)
    returns (next: Next, used: nat)
    requires InEvent(script, s) && DuringEvent(target, script, s) == Waits(Durable)
    requires e == s.received[|s.received| - 1] && !Terminal(e.kind) && s.at.confirm && s.used == s.at.Reading()
    requires TargetRevision(e, target) == Some(revision) && s.highest == Some(revision)
    ensures used == if Unanswered(script, s.used, Durable) then s.used else s.used + 1
    ensures used <= |script| && OnlyReads(script, s.used, used)
    ensures next.Stop? ==> (next.outcome.GaveUp? || next.outcome.Unfinished?) && Explained(target, script, s.(used := used), next.outcome)
    ensures next != Stop(Unfinished(Stream))
    ensures next.Continue? ==> used == s.at.Due() && Standing(target, script, s.(used := used)) == Waits(Stream)
  {
    var r;
    r, used := Check(target, script, s.used, Some(revision));
    next := if r.Silent? then Stop(Unfinished(Durable)) else if r.Problem? then Stop(GaveUp(r.code)) else Continue;
  }

  /** How far a step got with the event at hand: it used durable reads only, and
      went on only when all were made and the run waits for the stream again. */
  ghost predicate Steps(target: Target, script: seq<Answer>, s: State, next: Next, t: State, refuses: nat -> bool) {
    && s.used <= t.used <= s.at.Due() && t.used <= |script| && OnlyReads(script, s.used, t.used)
    && match next
       case Continue =>
         && Relays(target, s, t) && t.used == s.at.Due() && Accepted(refuses, |t.delivered|)
         && (s.at.from < s.at.Due() ==> Standing(target, script, t) == Waits(Stream))
       case Stop(outcome) => Closes(target, script, s, outcome, t, refuses) && outcome != Unfinished(Stream)
  }

  /** Raising the highest revision to the event's own does not change what its reads mean. */
  lemma {:induction false} SameMinimum(target: Target, script: seq<Answer>, s: State, t: State, revision: nat)
    requires t == s.(delivered := t.delivered, highest := Some(Max(s.highest, revision)))
    requires s.received != [] && TargetRevision(s.received[|s.received| - 1], target) == Some(revision)
    requires InEvent(script, s)
    ensures DuringEvent(target, script, t) == DuringEvent(target, script, s)
  {
  }

  /** A stop that closes the event is a step. */
  lemma {:induction false} StoppedSteps(target: Target, script: seq<Answer>, s: State, outcome: Outcome, t: State, refuses: nat -> bool)
    requires s.used <= t.used <= s.at.Due() && t.used <= |script| && OnlyReads(script, s.used, t.used)
    requires Closes(target, script, s, outcome, t, refuses) && outcome != Unfinished(Stream)
    ensures Steps(target, script, s, Stop(outcome), t, refuses)
  {
  }

  /** A notice of recovery that has been passed on is confirmed. */
  method ConfirmPassed(target: Target, script: seq<Answer>, s: State, passed: State, e: Event, revision: nat, refuses: nat -> bool)
    returns (next: Next, t: State)
    requires Relays(target, s, passed) && passed.used == s.used == s.at.Reading() && Accepted(refuses, |passed.delivered|)
    requires InEvent(script, passed) && DuringEvent(target, script, passed) == Waits(Durable)
    requires e == passed.received[|passed.received| - 1] && !Terminal(e.kind) && s.at.confirm
    requires TargetRevision(e, target) == Some(revision) && passed.highest == Some(revision)
    ensures Steps(target, script, s, next, t, refuses)
  {
    var used;
    next, used := ConfirmRecovery(target, script, passed, e, revision);
    t := passed.(used := used);
    if next.Stop? {
      RelaysCloses(target, script, s, t, next.outcome, refuses);
      StoppedSteps(target, script, s, next.outcome, t, refuses);
    }
  }

  /** A deliverable event of the target Turn that does not end it. */
  method RelayOpen(target: Target, script: seq<Answer>, s: State, e: Event, revision: nat, refuses: nat -> bool)
    returns (next: Next, t: State)
    requires Reached(target, script, s, e) && !Terminal(e.kind) && Accepted(refuses, |s.delivered|)
    requires TargetRevision(e, target) == Some(revision) && Deliverable(e.kind, revision, s.highest)
    ensures Steps(target, script, s, next, t, refuses)
  {
    var ok;
    ok, t := PassBound(target, script, s, e, revision, refuses);
    if s.at.from < s.at.Due() { SameMinimum(target, script, s, t, revision); }
    if !ok {
      RefusedCloses(target, script, s, t, refuses);
      StoppedSteps(target, script, s, OutputRefused, t, refuses);
      next := Stop(OutputRefused);
    } else if e.kind == ActionRequired && e.recovery {
      next, t := ConfirmPassed(target, script, s, t, e, revision, refuses);
    } else {
      next := Continue;
    }
  }

  /** Facing an event whose gap, if any, has been closed. */
  ghost predicate Reached(target: Target, script: seq<Answer>, s: State, e: Event) {
    && Facing(target, script, s, e) && !Exempt(e.kind) && s.used == s.at.Reading()
    && OnlyReads(script, s.at.from, s.used)
    && (s.at.from < s.at.Due() ==>
        InEvent(script, s) && DuringEvent(target, script, s) == Waits(if s.at.confirm then Durable else Stream))
  }

  /** A deliverable event of the target Turn, once no gap stands in the way. */
  method RelayBound(target: Target, script: seq<Answer>, s: State, e: Event, revision: nat, refuses: nat -> bool)
    returns (next: Next, t: State)
    requires Reached(target, script, s, e) && Accepted(refuses, |s.delivered|)
    requires TargetRevision(e, target) == Some(revision) && Deliverable(e.kind, revision, s.highest)
    ensures Steps(target, script, s, next, t, refuses)
  {
    if Terminal(e.kind) {
      var outcome;
      outcome, t := EndWith(target, script, s, e, revision, refuses);
      next := Stop(outcome);
    } else {
      next, t := RelayOpen(target, script, s, e, revision, refuses);
    }
  }

  /** An event that is relayed only by its revision, once no gap stands in the way. */
  method TakeInOrder(target: Target, script: seq<Answer>, s: State, e: Event, refuses: nat -> bool)
    returns (next: Next, t: State)
    requires Reached(target, script, s, e) && Accepted(refuses, |s.delivered|)
    ensures Steps(target, script, s, next, t, refuses)
  {
    if Relayed(e, target, s.highest) {
      next, t := RelayBound(target, script, s, e, TargetRevision(e, target).value, refuses);
    } else {
      RelayLast(target, s.received);
      next, t := Continue, s;
    }
  }

  lemma {:induction false} StepsLater(target: Target, script: seq<Answer>, s: State, next: Next, t: State, refuses: nat -> bool)
    requires s.used < |script| && script[s.used].Read? && Steps(target, script, s.(used := s.used + 1), next, t, refuses)
    ensures Steps(target, script, s, next, t, refuses)
  {
  }

  /** An event that is relayed only by its revision, and that skips a sequence number. */
  method TakeAfterGap(target: Target, script: seq<Answer>, s: State, e: Event, refuses: nat -> bool)
    returns (next: Next, t: State)
    requires Awaiting(target, script, s, e) && !Exempt(e.kind) && s.at.gap && s.used == s.at.from
    requires Accepted(refuses, |s.delivered|)
    ensures Steps(target, script, s, next, t, refuses)
    ensures t.used > s.used + 1 ==> FoundForEvent(target, script, s.(used := s.used + 1)) == Active
  {
    next, t := CloseGap(target, script, s, e, refuses);
    if next.Continue? {
      next, t := TakeInOrder(target, script, t, e, refuses);
      StepsLater(target, script, s, next, t, refuses);
    }
  }

  lemma {:induction false} FacesReceived(target: Target, script: seq<Answer>, s: State, e: Event)
    requires Good(target, script, s)
    ensures var u := Received(target, s, e);
      Facing(target, script, u, e) && (u.at.from < u.at.Due() ==> InEvent(script, u))
  {
    assert Received(target, s, e).received[..|s.received|] == s.received;
  }

  lemma {:induction false} RelaysIsGood(target: Target, script: seq<Answer>, s: State, e: Event, t: State)
    requires Good(target, script, s) && Relays(target, Received(target, s, e), t)
    requires s.used <= t.used <= |script| && t.at.Due() <= t.used
    ensures Good(target, script, t)
  {
  }

  lemma {:induction false} ExemptRelays(target: Target, script: seq<Answer>, s: State, e: Event)
    requires Facing(target, script, s, e) && Exempt(e.kind)
    ensures Relays(target, s, s.(delivered := Passes(Relay(target, s.received))))
  {
    var all := Passes(Relay(target, s.received));
    RelayLast(target, s.received);
    PassedLast(target, s.received);
    assert all == s.delivered + [Pass(e)] && !Pass(e).IsTerminal();
  }

  lemma {:induction false} ExemptSteps(target: Target, script: seq<Answer>, s: State, next: Next, t: State, refuses: nat -> bool)
    requires Relays(target, s, t) && t.used == s.used == s.at.from == s.at.Due() <= |script|
    requires |t.delivered| == |s.delivered| + 1 && Accepted(refuses, |s.delivered|)
    requires next == if refuses(|s.delivered|) then Stop(OutputRefused) else Continue
    ensures Steps(target, script, s, next, t, refuses)
  {
    if next.Stop? { RefusedCloses(target, script, s, t, refuses); }
  }

  /** An event that is relayed whatever its revision. */
  method TakeExempt(target: Target, script: seq<Answer>, s: State, e: Event, refuses: nat -> bool)
    returns (next: Next, t: State)
    requires Facing(target, script, s, e) && Exempt(e.kind) && s.used == s.at.from == s.at.Due()
    requires Accepted(refuses, |s.delivered|)
    ensures Steps(target, script, s, next, t, refuses)
  {
    ExemptRelays(target, script, s, e);
    var ok;
    ok, t := PassOn(target, s, e, refuses);
    next := if ok then Continue else Stop(OutputRefused);
    ExemptSteps(target, script, s, next, t, refuses);
  }

  /** Deals with one event, by durable reads where it asks for them. */
  method HandleEvent(target: Target, script: seq<Answer>, s: State, e: Event, refuses: nat -> bool)
    returns (next: Next, t: State)
    requires Good(target, script, s) && Accepted(refuses, |s.delivered|)
    ensures Steps(target, script, Received(target, s, e), next, t, refuses)
    ensures Onward(target, script, Received(target, s, e), t.used)
    ensures next.Continue? ==> Good(target, script, t)
  {
    var u := Received(target, s, e);
    FacesReceived(target, script, s, e);
    if Exempt(e.kind) {
      next, t := TakeExempt(target, script, u, e, refuses);
    } else if u.at.gap {
      next, t := TakeAfterGap(target, script, u, e, refuses);
    } else {
      next, t := TakeInOrder(target, script, u, e, refuses);
    }
    EventOnward(target, script, u, t.used);
    if next.Continue? { RelaysIsGood(target, script, s, e, t); }
  }

  // ------------------------------------------------------- answers in their places

  lemma {:induction false} ConnectsGrow(script: seq<Answer>, a: nat, b: nat)
    requires a <= b <= |script|
    ensures ConnectsIn(script, a) <= ConnectsIn(script, b)
    decreases b
  {
    if a < b { ConnectsGrow(script, a, b - 1); }
  }

  /** The same run after more answers, with its connection attempts counted. */
  function Moved(script: seq<Answer>, s: State, n: nat): State
    requires s.used <= n <= |script|
  {
    ConnectsGrow(script, s.used, n);
    s.(used := n, reconnects := s.reconnects + (ConnectsIn(script, n) - ConnectsIn(script, s.used)))
  }

  /** The run waits for this answer. */
  predicate Poses(target: Target, script: seq<Answer>, s: State, a: Answer)
    requires s.used <= |script|
  {
    && Standing(target, script, s).Waits? && Answers(Standing(target, script, s).question, a)
    && (Standing(target, script, s).question == Stream ==> s.buffered == [] && s.pending.None?)
  }

  /** Every answer used up to b was waited for where it came. */
  predicate Onward(target: Target, script: seq<Answer>, s: State, b: nat)
    decreases b
  {
    && s.used <= b <= |script|
    && (b == s.used || (Onward(target, script, s, b - 1) && Poses(target, script, Moved(script, s, b - 1), script[b - 1])))
  }

  /** One more answer that was waited for. */
  lemma {:induction false} OnwardMore(target: Target, script: seq<Answer>, s: State, n: nat)
    requires Onward(target, script, s, n) && n < |script| && Poses(target, script, Moved(script, s, n), script[n])
    ensures Onward(target, script, s, n + 1)
  {
  }

  /** One more durable read, after reads only. */
  lemma {:induction false} OnwardRead(target: Target, script: seq<Answer>, s: State, n: nat)
    requires Onward(target, script, s, n) && n < |script| && OnlyReads(script, s.used, n + 1)
    requires Standing(target, script, s.(used := n)) == Waits(Durable)
    ensures Onward(target, script, s, n + 1)
  {
    ReadsBringNothing(script, s.used, n);
    assert Moved(script, s, n) == s.(used := n);
    OnwardMore(target, script, s, n);
  }

  lemma {:induction false} EventOnward(target: Target, script: seq<Answer>, s: State, b: nat)
    requires s.received != [] && s.used == s.at.from <= b <= s.at.Due() && b <= |script| && OnlyReads(script, s.used, b)
    requires b > s.used + 1 ==> FoundForEvent(target, script, s.(used := s.used + 1)) == Active
    ensures Onward(target, script, s, b)
  {
    if b > s.used { OnwardRead(target, script, s, s.used); }
    if b > s.used + 1 { OnwardRead(target, script, s, s.used + 1); }
  }

  // ------------------------------------------------------------- lost connections

  /** Answers were used, but no event came; connection attempts are counted. */
  ghost predicate Quiet(script: seq<Answer>, s: State, t: State) {
    && s.used <= t.used <= |script| && EventsIn(script, t.used) == EventsIn(script, s.used)
    && t.connects + ConnectsIn(script, s.used) == s.connects + ConnectsIn(script, t.used)
    && t.received == s.received && t.buffered == s.buffered && t.pending == s.pending
  }

  lemma {:induction false} QuietTransitive(script: seq<Answer>, s: State, t: State, u: State)
    requires Quiet(script, s, t) && Quiet(script, t, u)
    ensures Quiet(script, s, u)
  {
  }

  lemma {:induction false} QuietReads(script: seq<Answer>, s: State, used: nat)
    requires s.used <= used <= |script| && OnlyReads(script, s.used, used)
    ensures Quiet(script, s, s.(used := used))
  {
    ReadsBringNothing(script, s.used, used);
  }

  /** Answer c subscribed a stream, and after that, with only reads between,
      answer r read the Turn as still active. */
  predicate Reattached(target: Target, script: seq<Answer>, c: nat, r: int, minimum: Option<nat>) {
    && c < r < |script| && script[c].Connected? && OnlyReads(script, c + 1, r + 1)
    && Reconcile(script[r].answer, target, minimum) == Active
  }

  predicate NoConnection(script: seq<Answer>, a: nat, b: nat) {
    a <= b <= |script| && forall i :: a <= i < b ==> !script[i].Connected?
  }

  /** Between a and b at most answer c made a connection, and only reads came after it. */
  predicate OnlyConnection(script: seq<Answer>, a: nat, c: nat, b: nat) {
    c <= b <= |script| && NoConnection(script, a, c) && (c < b ==> script[c].Connected? && OnlyReads(script, c + 1, b))
  }

  /** What comes of the attempts to get the stream back. */
  datatype Attempt = Resumed | Retry | Decided(verdict: Verdict) | Stuck(outcome: Outcome)

  /** Where the run stands after the attempts so far. */
  predicate Tried(target: Target, script: seq<Answer>, s: State, r: Attempt) {
    s.used <= |script| &&
    var stand := Standing(target, script, s);
    match r
    case Resumed => stand == Waits(Stream)
    case Retry => stand == Waits(Connection)
    case Decided(v) => stand == Ends(v)
    case Stuck(outcome) =>
      (outcome.GaveUp? || (outcome.Unfinished? && outcome.asked != Stream)) && Explained(target, script, s, outcome)
  }

  /** Only reads that found the Host unreachable came after answer k - 1, and the
      next one is waited for. */
  lemma {:induction false} RepeatsWait(target: Target, script: seq<Answer>, s: State, k: nat)
    requires s.at.Due() < k <= s.used && 0 < k && (s.used <= |script| && (script[k - 1].Connected? || script[k - 1].Tick?))
    requires Unreachable(target, script, k, s.used, s.highest) && s.used < k + MAX_RECONCILIATION_ATTEMPTS
    ensures Standing(target, script, s) == Waits(Durable)
  {
    if s.used > k { assert Says(target, script, s.used - 1, s.highest, Problem(HostUnreachable)); }
    forall i | k <= i < s.used ensures script[i].Read? { assert Says(target, script, i, s.highest, Problem(HostUnreachable)); }
    StandsSince(target, script, s, k);
  }

  lemma {:induction false} RepeatsOnward(target: Target, script: seq<Answer>, s: State, b: nat)
    requires 0 < s.used && s.at.Due() < s.used <= b <= |script| && (script[s.used - 1].Connected? || script[s.used - 1].Tick?)
    requires Unreachable(target, script, s.used, b, s.highest) && b < s.used + MAX_RECONCILIATION_ATTEMPTS
    ensures Onward(target, script, s, b) && OnlyReads(script, s.used, b)
    ensures Standing(target, script, s.(used := b)) == Waits(Durable)
    decreases b
  {
    if b > s.used {
      RepeatsOnward(target, script, s, b - 1);
      assert Says(target, script, b - 1, s.highest, Problem(HostUnreachable));
      OnwardRead(target, script, s, b - 1);
    }
    RepeatsWait(target, script, s.(used := b), s.used);
  }

  /** A replacement stream is subscribed; status is read only afterwards. */
  method ResumeAfterConnect(target: Target, script: seq<Answer>, s: State) returns (r: Attempt, used: nat)
    requires 0 < s.used <= |script| && script[s.used - 1].Connected? && s.at.Due() < s.used
    ensures s.used <= used <= |script| && OnlyReads(script, s.used, used) && Onward(target, script, s, used)
    ensures Tried(target, script, s.(used := used), r) && !r.Retry?
    ensures r.Resumed? ==> Reattached(target, script, s.used - 1, used - 1, s.highest)
  {
    var checked, attempts;
    checked, used, attempts := CheckRetaining(target, script, s.used, s.highest);
    RetainedOnward(target, script, s, checked, used, attempts);
    StandsSince(target, script, s.(used := used), s.used);
    match checked
    case Silent =>
      RepeatsWait(target, script, s.(used := used), s.used);
      r := Stuck(Unfinished(Durable));
    case Problem(code) => r := Stuck(GaveUp(code));
    case Alive => r := Resumed;
    case Over(v) => r := Decided(v);
  }

  lemma {:induction false} RetainedOnward(target: Target, script: seq<Answer>, s: State, checked: Checked, used: nat, attempts: nat)
    requires 0 < s.used && s.at.Due() < s.used <= used <= |script| && (script[s.used - 1].Connected? || script[s.used - 1].Tick?)
    requires 1 <= attempts <= MAX_RECONCILIATION_ATTEMPTS && Unreachable(target, script, s.used, s.used + attempts - 1, s.highest)
    requires if checked.Silent? then used == s.used + attempts - 1
      else used == s.used + attempts && Says(target, script, used - 1, s.highest, checked)
    ensures Onward(target, script, s, used)
  {
    RepeatsOnward(target, script, s, s.used + attempts - 1);
    if !checked.Silent? { OnwardRead(target, script, s, used - 1); }
  }

  /** A refused connection: one status read, then perhaps another attempt. */
  method AfterRefusal(target: Target, script: seq<Answer>, s: State) returns (r: Attempt, used: nat)
    requires 0 < s.used <= |script| && script[s.used - 1] == Refused(true) && s.at.Due() < s.used
    requires s.reconnects <= MAX_EVENT_RECONNECTS
    ensures used == if Unanswered(script, s.used, Durable) then s.used else s.used + 1
    ensures used <= |script| && OnlyReads(script, s.used, used) && Onward(target, script, s, used)
    ensures Tried(target, script, s.(used := used), r) && !r.Resumed?
    ensures r.Retry? ==> s.reconnects < MAX_EVENT_RECONNECTS
  {
    var checked;
    checked, used := Check(target, script, s.used, s.highest);
    StandsSince(target, script, s, s.used);
    StandsSince(target, script, s.(used := used), s.used);
    if used > s.used { OnwardRead(target, script, s, s.used); }
    match checked
    case Silent => r := Stuck(Unfinished(Durable));
    case Over(v) => r := Decided(v);
    case Problem(code) =>
      r := if code == HostUnreachable && s.reconnects < MAX_EVENT_RECONNECTS then Retry else Stuck(GaveUp(code));
    case Alive =>
      r := if s.reconnects == MAX_EVENT_RECONNECTS then Stuck(GaveUp(EventStreamLost)) else Retry;
  }

  /** The state once an attempt has been answered, and before anything is made of it. */
  function AfterAnswer(s: State, connected: bool): State {
    s.(reconnects := s.reconnects + 1, used := s.used + 1, connects := s.connects + 1,
       previous := if connected then 0 else s.previous)
  }

  /** Reconnecting moves on in the script, counts its attempts, and forgets the
      last sequence number once it is connected; nothing else changes. */
  predicate Reconnecting(script: seq<Answer>, s: State, t: State) {
    && s.used <= t.used <= |script|
    && t == Moved(script, s, t.used).(connects := t.connects, previous := t.previous)
    && t.connects == s.connects + ConnectsIn(script, t.used) - ConnectsIn(script, s.used)
    && (t.previous == s.previous || t.previous == 0) && t.reconnects <= MAX_EVENT_RECONNECTS
  }

  lemma {:induction false} ReconnectingIsGood(target: Target, script: seq<Answer>, s: State, t: State)
    requires Good(target, script, s) && Reconnecting(script, s, t)
    ensures Good(target, script, t)
  {
  }

  lemma {:induction false} AnswerIsQuiet(script: seq<Answer>, s: State, used: nat)
    requires s.used < used <= |script| && (script[s.used].Connected? || script[s.used].Refused?)
    requires OnlyReads(script, s.used + 1, used) && s.reconnects < MAX_EVENT_RECONNECTS
    ensures var t := AfterAnswer(s, script[s.used].Connected?).(used := used);
      Quiet(script, s, t) && Reconnecting(script, s, t)
  {
    assert EventsIn(script, s.used) + [] == EventsIn(script, s.used);
    ReadsBringNothing(script, s.used + 1, used);
  }

  /** What was waited for from u on was waited for from s on, when u is s moved. */
  lemma {:induction false} OnwardThen(target: Target, script: seq<Answer>, s: State, u: State, b: nat)
    requires Onward(target, script, s, u.used) && Onward(target, script, u, b)
    requires var m := Moved(script, s, u.used);
      u == m.(delivered := u.delivered, connects := u.connects, previous := u.previous)
    ensures Onward(target, script, s, b)
    decreases b
  {
    if b > u.used {
      OnwardThen(target, script, s, u, b - 1);
      StandsAlike(target, script, Moved(script, s, b - 1), Moved(script, u, b - 1));
    }
  }

  lemma {:induction false} AnswerOnward(target: Target, script: seq<Answer>, s: State)
    requires s.used < |script| && Poses(target, script, s, script[s.used])
    ensures Onward(target, script, s, s.used + 1)
  {
    assert Moved(script, s, s.used) == s;
    OnwardMore(target, script, s, s.used);
  }

  /** What the answer to a connection attempt and the reads after it make of the run. */
  method AfterAttempt(target: Target, script: seq<Answer>, s: State, answer: Answer) returns (r: Attempt, used: nat)
    requires 0 < s.used <= |script| && script[s.used - 1] == answer && (answer.Connected? || answer.Refused?)
    requires s.at.Due() < s.used && s.reconnects <= MAX_EVENT_RECONNECTS
    ensures s.used <= used <= |script| && OnlyReads(script, s.used, used) && Onward(target, script, s, used)
    ensures Tried(target, script, s.(used := used), r)
    ensures r.Retry? ==> answer.Refused? && s.reconnects < MAX_EVENT_RECONNECTS
    ensures r.Resumed? ==> answer.Connected? && Reattached(target, script, s.used - 1, used - 1, s.highest)
  {
    match answer
    case Connected => r, used := ResumeAfterConnect(target, script, s);
    case Refused(recoverable) =>
      if recoverable {
        r, used := AfterRefusal(target, script, s);
      } else {
        StandsSince(target, script, s, s.used);
        r, used := Stuck(GaveUp(EventStreamLost)), s.used;
      }
  }

  /** One connection attempt; c is where a stream was subscribed, if one was. */
  method ConnectOnce(target: Target, script: seq<Answer>, s: State) returns (r: Attempt, t: State, c: nat)
    requires s.used <= |script| && s.at.Due() < s.used && s.reconnects < MAX_EVENT_RECONNECTS
    requires Standing(target, script, s) == Waits(Connection)
    ensures Quiet(script, s, t) && Reconnecting(script, s, t) && Onward(target, script, s, t.used)
    ensures Tried(target, script, t, r) && OnlyConnection(script, s.used, c, t.used)
    ensures r.Retry? ==> s.reconnects < t.reconnects < MAX_EVENT_RECONNECTS && c == t.used
    ensures r.Resumed? ==> Reattached(target, script, c, t.used - 1, t.highest) && t.previous == 0
  {
    if s.used == |script| || !(script[s.used].Connected? || script[s.used].Refused?) {
      r, t, c := Stuck(Unfinished(Connection)), s, s.used;
    } else {
      var connected := script[s.used].Connected?;
      var used;
      r, used := AfterAttempt(target, script, AfterAnswer(s, connected), script[s.used]);
      AttemptOnward(target, script, s, used);
      AnswerIsQuiet(script, s, used);
      t, c := AfterAnswer(s, connected).(used := used), if connected then s.used else used;
      AttemptConnects(script, s.used, c, used);
    }
  }

  lemma {:induction false} AttemptConnects(script: seq<Answer>, a: nat, c: nat, b: nat)
    requires a < b <= |script| && OnlyReads(script, a + 1, b) && c == if script[a].Connected? then a else b
    ensures OnlyConnection(script, a, c, b)
  {
  }

  lemma {:induction false} AttemptOnward(target: Target, script: seq<Answer>, s: State, used: nat)
    requires s.used < used <= |script| && (script[s.used].Connected? || script[s.used].Refused?)
    requires Standing(target, script, s) == Waits(Connection) && s.reconnects < MAX_EVENT_RECONNECTS
    requires Onward(target, script, AfterAnswer(s, script[s.used].Connected?), used)
    ensures Onward(target, script, s, used)
  {
    AnswerOnward(target, script, s);
    AnswerIsQuiet(script, s, s.used + 1);
    OnwardThen(target, script, s, AfterAnswer(s, script[s.used].Connected?), used);
  }

  lemma {:induction false} ConnectsOn(script: seq<Answer>, a: nat, b: nat, c: nat, d: nat)
    requires NoConnection(script, a, b) && OnlyConnection(script, b, c, d)
    ensures OnlyConnection(script, a, c, d)
  {
  }

  lemma {:induction false} ReconnectingOn(script: seq<Answer>, s: State, t: State, u: State)
    requires Reconnecting(script, s, t) && Reconnecting(script, t, u)
    ensures Reconnecting(script, s, u)
  {
  }

  /** Tries to get the stream back after it was lost; c is where a new one was
      subscribed, if one was. */
  method Recover(target: Target, script: seq<Answer>, s: State, recoverable: bool) returns (r: Attempt, t: State, c: nat)
    requires 0 < s.used <= |script| && script[s.used - 1] == Lost(recoverable) && s.at.Due() < s.used
    requires s.reconnects <= MAX_EVENT_RECONNECTS
    ensures Quiet(script, s, t) && Reconnecting(script, s, t) && Onward(target, script, s, t.used)
    ensures Tried(target, script, t, r) && OnlyConnection(script, s.used, c, t.used) && !r.Retry?
    ensures r.Resumed? ==> Reattached(target, script, c, t.used - 1, t.highest) && t.previous == 0
  {
    StandsSince(target, script, s, s.used);
    var again := recoverable && s.reconnects + 1 <= MAX_EVENT_RECONNECTS;
    r, t, c := if again then Retry else Stuck(GaveUp(EventStreamLost)), s, s.used;
    while r.Retry?
      invariant Quiet(script, s, t) && Reconnecting(script, s, t) && Onward(target, script, s, t.used)
      invariant Tried(target, script, t, r) && OnlyConnection(script, s.used, c, t.used)
      invariant r.Retry? ==> t.reconnects < MAX_EVENT_RECONNECTS && c == t.used
      invariant r.Resumed? ==> Reattached(target, script, c, t.used - 1, t.highest) && t.previous == 0
      decreases r.Retry?, MAX_EVENT_RECONNECTS - t.reconnects
    {
      ghost var u := t;
      r, t, c := ConnectOnce(target, script, t);
      QuietTransitive(script, s, u, t);
      ReconnectingOn(script, s, u, t);
      OnwardThen(target, script, s, u, t.used);
      ConnectsOn(script, s.used, u.used, c, t.used);
    }
  }

  // ---------------------------------------------------------------------- the run

  /** A probe that lets the run go on: the Turn was still active, or the Host
      unreachable to the last; or the Turn was over, the events already there
      were taken in, and the verdict waits for them. */
  predicate Probed(target: Target, script: seq<Answer>, s: State, t: State) {
    s.used < t.used <= |script| &&
    if JustRead(script, t.used) then
      var found := Reconcile(script[t.used - 1].answer, target, s.highest);
      && OnlyReads(script, s.used, t.used) && t == s.(used := t.used)
      && (found == Active || (found == Error(HostUnreachable) && t.used == s.used + MAX_RECONCILIATION_ATTEMPTS))
    else
      s.used + 2 <= t.used && OnlyReads(script, s.used, t.used - 1) && Answers(Drain, script[t.used - 1]) &&
      var found := Reconcile(script[t.used - 2].answer, target, s.highest);
      found.Ended? && t == s.(used := t.used, buffered := s.buffered + EventsOf(script[t.used - 1]),
        pending := Some(Verdict(found.session, found.turn, t.used - 2)))
  }

  /** The reconciliation clock fired: the Turn may be over without having said so. */
  method Probe(target: Target, script: seq<Answer>, s: State) returns (next: Next, t: State)
    requires 0 < s.used <= |script| && script[s.used - 1].Tick? && s.at.Due() < s.used
    ensures Onward(target, script, s, t.used)
    ensures next.Continue? ==> Probed(target, script, s, t) && Standing(target, script, t) == Waits(Stream)
    ensures next.Continue? && t.buffered != [] && s.buffered == [] ==> Calm(script, t.used)
    ensures next.Stop? ==> OnlyReads(script, s.used, t.used) && t == s.(used := t.used)
    ensures next.Stop? ==> (next.outcome.GaveUp? || next.outcome.Unfinished?) && Explained(target, script, t, next.outcome)
    ensures next != Stop(Unfinished(Stream))
  {
    var checked, used, attempts := CheckRetaining(target, script, s.used, s.highest);
    t := s.(used := used);
    TickStands(target, script, s, checked, used, attempts);
    match checked
    case Silent => next := Stop(Unfinished(Durable));
    case Alive => next := Continue;
    case Problem(code) => next := if code == HostUnreachable then Continue else Stop(GaveUp(code));
    case Over(v) =>
      if used == |script| || !(script[used].Ready? || script[used].DrainFailed?) {
        next := Stop(Unfinished(Drain));
      } else {
        DrainedOnward(target, script, s, used);
        next, t := Continue, t.(used := used + 1, buffered := s.buffered + EventsOf(script[used]), pending := Some(v));
        DrainedStands(target, script, t);
        DrainedProbed(target, script, s, used, v, t);
      }
  }

  /** Where a run stands after the reads that a tick asked for. */
  lemma {:induction false} TickStands(target: Target, script: seq<Answer>, s: State, checked: Checked, used: nat, attempts: nat)
    requires 0 < s.used && s.at.Due() < s.used <= used <= |script| && script[s.used - 1].Tick? && OnlyReads(script, s.used, used)
    requires 1 <= attempts <= MAX_RECONCILIATION_ATTEMPTS && Unreachable(target, script, s.used, s.used + attempts - 1, s.highest)
    requires if checked.Silent? then used == s.used + attempts - 1
      else used == s.used + attempts && Says(target, script, used - 1, s.highest, checked)
    requires checked == Problem(HostUnreachable) ==> attempts == MAX_RECONCILIATION_ATTEMPTS
    ensures Onward(target, script, s, used)
    ensures Standing(target, script, s.(used := used)) ==
      match checked
      case Silent => Waits(Durable)
      case Alive => Waits(Stream)
      case Problem(code) => if code == HostUnreachable then Waits(Stream) else Fails(code)
      case Over(_) => Waits(Drain)
  {
    RetainedOnward(target, script, s, checked, used, attempts);
    if checked.Silent? {
      RepeatsOnward(target, script, s, used);
    } else {
      StandsSince(target, script, s.(used := used), s.used);
    }
  }

  lemma {:induction false} DrainedProbed(target: Target, script: seq<Answer>, s: State, used: nat, v: Verdict, t: State)
    requires s.used < used < |script| && OnlyReads(script, s.used, used) && Answers(Drain, script[used])
    requires Says(target, script, used - 1, s.highest, Over(v))
    requires t == s.(used := used + 1, buffered := s.buffered + EventsOf(script[used]), pending := Some(v))
    ensures Probed(target, script, s, t)
  {
  }

  lemma {:induction false} DrainedStands(target: Target, script: seq<Answer>, t: State)
    requires 0 < t.used <= |script| && Answers(Drain, script[t.used - 1]) && t.at.Due() < t.used
    ensures Standing(target, script, t) == Waits(Stream) && Calm(script, t.used)
  {
    StartIs(script, t.used, t.used);
    StandsSince(target, script, t, t.used);
  }

  lemma {:induction false} DrainedOnward(target: Target, script: seq<Answer>, s: State, used: nat)
    requires Onward(target, script, s, used) && used < |script| && OnlyReads(script, s.used, used)
    requires Standing(target, script, s.(used := used)) == Waits(Drain) && Answers(Drain, script[used])
    ensures Onward(target, script, s, used + 1)
  {
    ReadsBringNothing(script, s.used, used);
    assert Moved(script, s, used) == s.(used := used);
    OnwardMore(target, script, s, used);
  }

  /** Everything a probe takes in comes from the answers it used. */
  lemma {:induction false} ProbeAccounts(begin: seq<Event>, target: Target, script: seq<Answer>, s: State, t: State)
    requires Accounts(begin, script, s) && Probed(target, script, s, t)
    ensures Accounts(begin, script, t) && NoConnection(script, s.used, t.used)
  {
    var read := if JustRead(script, t.used) then t.used else t.used - 1;
    QuietReads(script, s, read);
    AccountsQuiet(begin, script, s, s.(used := read));
    if read < t.used { AccountsMore(begin, script, s.(used := read), t); }
  }

  lemma {:induction false} ProbeIsGood(target: Target, script: seq<Answer>, s: State, t: State)
    requires Good(target, script, s) && Probed(target, script, s, t)
    ensures Good(target, script, t)
  {
    if !JustRead(script, t.used) { EndedAnyway(target, script[t.used - 2].answer, s.highest); }
  }

  /** A Turn that is over is over whatever revision was asked for. */
  lemma {:induction false} EndedAnyway(target: Target, answer: ReadAnswer, minimum: Option<nat>)
    requires Reconcile(answer, target, minimum).Ended?
    ensures Reconcile(answer, target, None) == Reconcile(answer, target, minimum)
  {
  }

  lemma {:induction false} AccountsReads(begin: seq<Event>, script: seq<Answer>, s: State, e: Event, t: State)
    requires Accounts(begin, script, s) && s.buffered != [] && e == s.buffered[0]
    requires s.used <= t.used <= |script| && OnlyReads(script, s.used, t.used)
    requires t.received == s.received + [e] && t.buffered == s.buffered[1..] && t.connects == s.connects
    ensures Accounts(begin, script, t)
  {
    ReadsBringNothing(script, s.used, t.used);
    assert s.received + s.buffered == (s.received + [e]) + s.buffered[1..];
  }

  /** Events added to the buffer are accounted for by the answer that brought them. */
  lemma {:induction false} AccountsMore(begin: seq<Event>, script: seq<Answer>, s: State, t: State)
    requires Accounts(begin, script, s) && s.used < |script| && !Answers(Connection, script[s.used])
    requires t.used == s.used + 1 && t.buffered == s.buffered + EventsOf(script[s.used])
    requires t.received == s.received && t.connects == s.connects
    ensures Accounts(begin, script, t)
  {
    var more := EventsOf(script[s.used]);
    assert s.received + (s.buffered + more) == (s.received + s.buffered) + more;
    assert begin + (EventsIn(script, s.used) + more) == (begin + EventsIn(script, s.used)) + more;
  }

  lemma {:induction false} AccountsArrival(begin: seq<Event>, script: seq<Answer>, s: State, t: State)
    requires Accounts(begin, script, s) && s.buffered == [] && s.used < |script| && script[s.used].Arrives?
    requires s.used < t.used <= |script| && OnlyReads(script, s.used + 1, t.used)
    requires t.received == s.received + [script[s.used].event] && t.buffered == [] && t.connects == s.connects
    ensures Accounts(begin, script, t)
  {
    var u := s.(used := s.used + 1, buffered := s.buffered + EventsOf(script[s.used]));
    AccountsMore(begin, script, s, u);
    AccountsReads(begin, script, u, script[s.used].event, t);
  }

  lemma {:induction false} AccountsQuiet(begin: seq<Event>, script: seq<Answer>, s: State, t: State)
    requires Accounts(begin, script, s) && Quiet(script, s, t)
    ensures Accounts(begin, script, t)
  {
  }

  /** After the stream subscribed by answer c, the Turn was read as still
      active within the first n answers. */
  ghost predicate Resumes(target: Target, script: seq<Answer>, c: nat, n: nat) {
    exists r, minimum :: r < n && Reattached(target, script, c, r, minimum)
  }

  ghost predicate AllResume(target: Target, script: seq<Answer>, n: nat) {
    n <= |script| && forall c: nat :: c < n && script[c].Connected? ==> Resumes(target, script, c, n)
  }

  /** No stream is used before the Turn has been read as active after its
      subscription; the last one may still be waiting for that when the run ends. */
  ghost predicate Watched(target: Target, script: seq<Answer>, n: nat) {
    n <= |script| &&
    forall c: nat :: c < n && script[c].Connected? ==> Resumes(target, script, c, n) || OnlyReads(script, c + 1, n)
  }

  lemma {:induction false} ResumesLater(target: Target, script: seq<Answer>, c: nat, n: nat, m: nat)
    requires Resumes(target, script, c, n) && n <= m
    ensures Resumes(target, script, c, m)
  {
    var r, minimum :| r < n && Reattached(target, script, c, r, minimum);
    assert r < m;
  }

  lemma {:induction false} NoneConnected(target: Target, script: seq<Answer>, a: nat, b: nat)
    requires AllResume(target, script, a) && NoConnection(script, a, b)
    ensures AllResume(target, script, b) && Watched(target, script, b)
  {
    forall c: nat | c < b && script[c].Connected? ensures Resumes(target, script, c, b) {
      ResumesLater(target, script, c, a, b);
    }
  }

  lemma {:induction false} OneConnected(target: Target, script: seq<Answer>, a: nat, c: nat, b: nat)
    requires AllResume(target, script, a) && OnlyConnection(script, a, c, b)
    ensures Watched(target, script, b)
  {
    forall i: nat | i < b && script[i].Connected? && i != c ensures Resumes(target, script, i, b) {
      ResumesLater(target, script, i, a, b);
    }
  }

  lemma {:induction false} OneResumed(target: Target, script: seq<Answer>, a: nat, c: nat, b: nat, minimum: Option<nat>)
    requires AllResume(target, script, a) && OnlyConnection(script, a, c, b) && Reattached(target, script, c, b - 1, minimum)
    ensures AllResume(target, script, b)
  {
    forall i: nat | i < b && script[i].Connected? ensures Resumes(target, script, i, b) {
      if i != c { ResumesLater(target, script, i, a, b); }
    }
  }

  lemma {:induction false} ReadsConnectNothing(script: seq<Answer>, a: nat, b: nat)
    requires a < b <= |script| && !script[a].Connected? && OnlyReads(script, a + 1, b)
    ensures NoConnection(script, a, b)
  {
  }

  /** What holds of the whole run so far whenever the follower is about to wait. */
  ghost predicate Running(target: Target, begin: seq<Event>, script: seq<Answer>, s: State, refuses: nat -> bool) {
    && Good(target, script, s) && Accounts(begin, script, s) && AllResume(target, script, s.used)
    && Standing(target, script, s) == Waits(Stream) && (s.buffered != [] ==> Calm(script, s.used))
    && Accepted(refuses, |s.delivered|)
  }

  /** What holds of the whole run when it stops. */
  ghost predicate Stopped(target: Target, begin: seq<Event>, script: seq<Answer>, s: State, outcome: Outcome, refuses: nat -> bool) {
    && Accounts(begin, script, s) && Watched(target, script, s.used)
    && Concluded(target, script, s, outcome, refuses)
    && s.connects <= 3 * (|s.received| + 1)
  }

  /** The state at the head of the loop with its next event taken up, if there is one. */
  function TakenUp(target: Target, script: seq<Answer>, h: State): State {
    if h.buffered != [] then Received(target, h.(buffered := h.buffered[1..]), h.buffered[0])
    else if h.pending.None? && h.used < |script| && script[h.used].Arrives? then
      Received(target, h.(used := h.used + 1), script[h.used].event)
    else h
  }

  /** A lost stream has been replaced. */
  predicate Replaced(script: seq<Answer>, h: State, g: State)
    requires h.used < |script|
  {
    script[h.used].Lost? && Reconnecting(script, h, g) && g.previous == 0 && !NoConnection(script, h.used, g.used)
  }

  /** A tick has been looked into. */
  predicate Ticked(target: Target, script: seq<Answer>, h: State, g: State)
    requires h.used < |script|
  {
    script[h.used].Tick? && Probed(target, script, h.(used := h.used + 1), g)
  }

  /** One turn of the loop, from head to head: an event is dealt with, a lost
      stream is replaced, or a tick has been looked into.  Every answer it used
      was waited for where it came. */
  ghost predicate Turned(target: Target, script: seq<Answer>, h: State, g: State) {
    var u := TakenUp(target, script, h);
    && Onward(target, script, u, g.used) && Standing(target, script, g) == Waits(Stream)
    && if |h.received| < |u.received| then Relays(target, u, g) && g.used == u.at.Due()
       else h.used < |script| && (Replaced(script, h, g) || Ticked(target, script, h, g))
  }

  /** The turn that ends the run. */
  ghost predicate Left(target: Target, script: seq<Answer>, h: State, outcome: Outcome, s: State) {
    var u := TakenUp(target, script, h);
    && Onward(target, script, u, s.used) && Explained(target, script, s, outcome)
    && s == Moved(script, u, s.used).(delivered := s.delivered, highest := s.highest, connects := s.connects, previous := s.previous)
    && (s.highest == u.highest || s.highest == Highest(target, Relay(target, u.received)))
    && (|h.received| < |u.received| ==> s.used <= u.at.Due())
  }

  function Begin(begin: seq<Event>): State {
    State(0, begin, [], [], None, 0, 0, 0, None, Taken(0, false, false))
  }

  /** The heads of the loop from the start of the run on. */
  ghost predicate Trail(target: Target, begin: seq<Event>, script: seq<Answer>, heads: seq<State>) {
    heads != [] &&
    if |heads| == 1 then heads[0] == Begin(begin)
    else Trail(target, begin, script, heads[..|heads| - 1]) && Turned(target, script, heads[|heads| - 2], heads[|heads| - 1])
  }

  lemma {:induction false} TrailMore(target: Target, begin: seq<Event>, script: seq<Answer>, heads: seq<State>, g: State)
    requires Trail(target, begin, script, heads) && Turned(target, script, heads[|heads| - 1], g)
    ensures Trail(target, begin, script, heads + [g])
  {
    assert (heads + [g])[..|heads|] == heads;
  }

  /** A loss or a tick brings nothing by itself. */
  lemma {:induction false} AnswerKeepsAccounts(target: Target, begin: seq<Event>, script: seq<Answer>, s: State)
    requires Good(target, script, s) && Accounts(begin, script, s) && AllResume(target, script, s.used)
    requires s.used < |script| && (script[s.used].Lost? || script[s.used].Tick?)
    ensures var u := s.(used := s.used + 1);
      && Good(target, script, u) && Accounts(begin, script, u) && AllResume(target, script, u.used)
      && u == Moved(script, s, u.used)
  {
    assert s.buffered + [] == s.buffered;
    AccountsMore(begin, script, s, s.(used := s.used + 1));
    NoneConnected(target, script, s.used, s.used + 1);
  }

  lemma {:induction false} EventKeepsStanding(target: Target, script: seq<Answer>, u: State, t: State)
    requires Calm(script, u.used) && u.used <= t.used <= |script| && OnlyReads(script, u.used, t.used)
    requires t.at.from < t.at.Due() ==> Standing(target, script, t) == Waits(Stream)
    ensures Standing(target, script, t) == Waits(Stream) && Calm(script, t.used)
  {
    CalmReads(script, u.used, t.used);
    if t.at.from == t.at.Due() { CalmWaits(target, script, t); }
  }

  lemma {:induction false} EventTurns(target: Target, script: seq<Answer>, h: State, t: State)
    requires var u := TakenUp(target, script, h);
      && |h.received| < |u.received| && Relays(target, u, t) && t.used == u.at.Due() && Onward(target, script, u, t.used)
    requires Standing(target, script, t) == Waits(Stream)
    ensures Turned(target, script, h, t)
  {
  }

  lemma {:induction false} EventLeaves(target: Target, script: seq<Answer>, h: State, outcome: Outcome, t: State, refuses: nat -> bool)
    requires var u := TakenUp(target, script, h);
      && u.used <= t.used <= |script| && OnlyReads(script, u.used, t.used) && t.used <= u.at.Due()
      && Closes(target, script, u, outcome, t, refuses) && Onward(target, script, u, t.used)
    ensures Left(target, script, h, outcome, t)
  {
    ReadsBringNothing(script, TakenUp(target, script, h).used, t.used);
  }

  /** The next event that is already there is dealt with. */
  method TakeBuffered(target: Target, begin: seq<Event>, script: seq<Answer>, s: State, refuses: nat -> bool)
    returns (next: Next, t: State)
    requires Running(target, begin, script, s, refuses) && s.buffered != []
    ensures next.Continue? ==> Running(target, begin, script, t, refuses) && Turned(target, script, s, t)
    ensures next.Continue? ==> s.used <= t.used && |t.buffered| < |s.buffered|
    ensures next.Stop? ==> Stopped(target, begin, script, t, next.outcome, refuses) && Left(target, script, s, next.outcome, t)
    ensures next.Stop? && next.outcome.Finished? ==> Covered(target, t, next.outcome.verdict)
  {
    ghost var u := TakenUp(target, script, s);
    next, t := HandleEvent(target, script, s.(buffered := s.buffered[1..]), s.buffered[0], refuses);
    AccountsReads(begin, script, s, s.buffered[0], t);
    NoneConnected(target, script, s.used, t.used);
    if next.Continue? {
      EventKeepsStanding(target, script, u, t);
      EventTurns(target, script, s, t);
    } else {
      EventLeaves(target, script, s, next.outcome, t, refuses);
    }
  }

  lemma {:induction false} ArrivalKeeps(target: Target, begin: seq<Event>, script: seq<Answer>, s: State, t: State)
    requires Accounts(begin, script, s) && AllResume(target, script, s.used) && s.buffered == []
    requires s.used < t.used <= |script| && script[s.used].Arrives? && OnlyReads(script, s.used + 1, t.used)
    requires t.received == s.received + [script[s.used].event] && t.buffered == [] && t.connects == s.connects
    ensures Accounts(begin, script, t) && AllResume(target, script, t.used) && Watched(target, script, t.used)
    ensures Calm(script, s.used + 1)
  {
    AccountsArrival(begin, script, s, t);
    ReadsConnectNothing(script, s.used, t.used);
    NoneConnected(target, script, s.used, t.used);
    StartIs(script, s.used + 1, s.used + 1);
  }

  /** The stream brings an event. */
  method TakeArrival(target: Target, begin: seq<Event>, script: seq<Answer>, s: State, refuses: nat -> bool)
    returns (next: Next, t: State)
    requires Running(target, begin, script, s, refuses) && s.buffered == [] && s.pending.None?
    requires s.used < |script| && script[s.used].Arrives?
    ensures next.Continue? ==> Running(target, begin, script, t, refuses) && Turned(target, script, s, t) && s.used < t.used
    ensures next.Stop? ==> Stopped(target, begin, script, t, next.outcome, refuses) && Left(target, script, s, next.outcome, t)
    ensures next.Stop? && next.outcome.Finished? ==> Covered(target, t, next.outcome.verdict)
  {
    ghost var u := TakenUp(target, script, s);
    next, t := HandleEvent(target, script, s.(used := s.used + 1), script[s.used].event, refuses);
    ArrivalKeeps(target, begin, script, s, t);
    if next.Continue? {
      EventKeepsStanding(target, script, u, t);
      EventTurns(target, script, s, t);
    } else {
      EventLeaves(target, script, s, next.outcome, t, refuses);
    }
  }

  /** A verdict of a durable read after a connection or a refusal is proven, and
      not behind what was relayed. */
  lemma {:induction false} StandsProven(target: Target, script: seq<Answer>, s: State, v: Verdict)
    requires s.used <= |script| && s.at.Due() < s.used && Standing(target, script, s) == Ends(v)
    ensures Proven(target, script, s.used, v) && (s.highest.Some? ==> s.highest.value <= v.turn.revision)
  {
  }

  /** What the attempts to get the stream back mean for the run. */
  method Settle(target: Target, script: seq<Answer>, s: State, r: Attempt, refuses: nat -> bool)
    returns (next: Next, t: State)
    requires Good(target, script, s) && Accepted(refuses, |s.delivered|) && s.at.Due() < s.used
    requires Tried(target, script, s, r) && !r.Retry?
    ensures t == s.(delivered := t.delivered) && (next.Continue? <==> r.Resumed?)
    ensures next.Continue? ==> t == s
    ensures next.Stop? ==> Concluded(target, script, t, next.outcome, refuses)
    ensures next.Stop? && next.outcome.Finished? ==> Covered(target, t, next.outcome.verdict)
  {
    t := s;
    match r
    case Resumed => next := Continue;
    case Decided(v) =>
      StandsProven(target, script, s, v);
      var outcome;
      outcome, t := DeliverSynthetic(target, script, s, v, refuses);
      next := Stop(outcome);
    case Stuck(outcome) => next := Stop(outcome);
  }

  lemma {:induction false} RecoveredRun(
    target: Target, begin: seq<Event>, script: seq<Answer>, s: State, r: Attempt, t: State, c: nat)
    requires Good(target, script, s) && Accounts(begin, script, s) && AllResume(target, script, s.used)
    requires Quiet(script, s, t) && Reconnecting(script, s, t) && OnlyConnection(script, s.used, c, t.used)
    requires r.Resumed? ==> Reattached(target, script, c, t.used - 1, t.highest)
    ensures Good(target, script, t) && Accounts(begin, script, t) && Watched(target, script, t.used)
    ensures r.Resumed? ==> AllResume(target, script, t.used)
  {
    AccountsQuiet(begin, script, s, t);
    ReconnectingIsGood(target, script, s, t);
    OneConnected(target, script, s.used, c, t.used);
    if r.Resumed? { OneResumed(target, script, s.used, c, t.used, t.highest); }
  }

  /** Getting the stream back, seen from the head of the loop where it was lost. */
  lemma {:induction false} LossMoves(target: Target, script: seq<Answer>, s: State, t: State)
    requires s.used < |script| && script[s.used].Lost? && s.buffered == [] && s.pending.None?
    requires Standing(target, script, s) == Waits(Stream)
    requires var u := s.(used := s.used + 1); Reconnecting(script, u, t) && Onward(target, script, u, t.used)
    ensures Onward(target, script, s, t.used) && Reconnecting(script, s, t) && TakenUp(target, script, s) == s
  {
    AnswerOnward(target, script, s);
    OnwardThen(target, script, s, s.(used := s.used + 1), t.used);
  }

  /** The stream is lost. */
  method TakeLoss(target: Target, begin: seq<Event>, script: seq<Answer>, s: State, refuses: nat -> bool)
    returns (next: Next, t: State)
    requires Running(target, begin, script, s, refuses) && s.buffered == [] && s.pending.None?
    requires s.used < |script| && script[s.used].Lost?
    ensures next.Continue? ==> Running(target, begin, script, t, refuses) && Turned(target, script, s, t) && s.used < t.used
    ensures next.Stop? ==> Stopped(target, begin, script, t, next.outcome, refuses) && Left(target, script, s, next.outcome, t)
    ensures next.Stop? && next.outcome.Finished? ==> Covered(target, t, next.outcome.verdict)
  {
    var u := s.(used := s.used + 1);
    AnswerKeepsAccounts(target, begin, script, s);
    var r, c;
    r, t, c := Recover(target, script, u, script[s.used].recoverable);
    RecoveredRun(target, begin, script, u, r, t, c);
    LossMoves(target, script, s, t);
    next, t := Settle(target, script, t, r, refuses);
  }

  lemma {:induction false} TickMoves(target: Target, script: seq<Answer>, s: State, b: nat)
    requires s.used < |script| && script[s.used].Tick? && s.buffered == [] && s.pending.None?
    requires Standing(target, script, s) == Waits(Stream) && Onward(target, script, s.(used := s.used + 1), b)
    ensures Onward(target, script, s, b) && TakenUp(target, script, s) == s
  {
    AnswerOnward(target, script, s);
    OnwardThen(target, script, s, s.(used := s.used + 1), b);
  }

  lemma {:induction false} TickStops(begin: seq<Event>, script: seq<Answer>, s: State, t: State)
    requires s.used < t.used <= |script| && script[s.used].Tick? && OnlyReads(script, s.used + 1, t.used)
    requires Accounts(begin, script, s.(used := s.used + 1)) && t == s.(used := t.used)
    ensures Accounts(begin, script, t) && t == Moved(script, s, t.used) && NoConnection(script, s.used + 1, t.used)
  {
    QuietReads(script, s.(used := s.used + 1), t.used);
    AccountsQuiet(begin, script, s.(used := s.used + 1), t);
  }

  lemma {:induction false} TickRuns(target: Target, begin: seq<Event>, script: seq<Answer>, u: State, t: State)
    requires Good(target, script, u) && Accounts(begin, script, u) && AllResume(target, script, u.used)
    requires Probed(target, script, u, t)
    ensures Good(target, script, t) && Accounts(begin, script, t) && AllResume(target, script, t.used)
    ensures t.delivered == u.delivered
  {
    ProbeAccounts(begin, target, script, u, t);
    ProbeIsGood(target, script, u, t);
    NoneConnected(target, script, u.used, t.used);
  }

  lemma {:induction false} TickTurns(target: Target, script: seq<Answer>, s: State, t: State)
    requires s.used < |script| && script[s.used].Tick? && TakenUp(target, script, s) == s
    requires Onward(target, script, s, t.used) && Standing(target, script, t) == Waits(Stream)
    requires Probed(target, script, s.(used := s.used + 1), t)
    ensures Turned(target, script, s, t)
  {
  }

  lemma {:induction false} TickEnds(
    target: Target, begin: seq<Event>, script: seq<Answer>, u: State, outcome: Outcome, t: State, refuses: nat -> bool)
    requires Good(target, script, u) && AllResume(target, script, u.used) && Accepted(refuses, |u.delivered|)
    requires t == u.(used := t.used) && Accounts(begin, script, t) && NoConnection(script, u.used, t.used)
    requires (outcome.GaveUp? || outcome.Unfinished?) && Explained(target, script, t, outcome)
    ensures Stopped(target, begin, script, t, outcome, refuses)
  {
    NoneConnected(target, script, u.used, t.used);
  }

  lemma {:induction false} TickLeaves(target: Target, script: seq<Answer>, s: State, outcome: Outcome, t: State)
    requires s.used <= t.used <= |script| && t == Moved(script, s, t.used) && TakenUp(target, script, s) == s
    requires Onward(target, script, s, t.used) && Explained(target, script, t, outcome)
    ensures Left(target, script, s, outcome, t)
  {
  }

  /** The reconciliation clock fires. */
  method TakeTick(target: Target, begin: seq<Event>, script: seq<Answer>, s: State, refuses: nat -> bool)
    returns (next: Next, t: State)
    requires Running(target, begin, script, s, refuses) && s.buffered == [] && s.pending.None?
    requires s.used < |script| && script[s.used].Tick?
    ensures next.Continue? ==> Running(target, begin, script, t, refuses) && Turned(target, script, s, t) && s.used < t.used
    ensures next.Stop? ==> Stopped(target, begin, script, t, next.outcome, refuses) && Left(target, script, s, next.outcome, t)
    ensures next.Stop? ==> !next.outcome.Finished?
  {
    var u := s.(used := s.used + 1);
    AnswerKeepsAccounts(target, begin, script, s);
    next, t := Probe(target, script, u);
    TickMoves(target, script, s, t.used);
    if next.Continue? {
      TickRuns(target, begin, script, u, t);
      TickTurns(target, script, s, t);
    } else {
      TickStops(begin, script, s, t);
      TickEnds(target, begin, script, u, next.outcome, t, refuses);
      TickLeaves(target, script, s, next.outcome, t);
    }
  }

  /** One turn of the loop. */
  method TakeTurn(target: Target, begin: seq<Event>, script: seq<Answer>, s: State, refuses: nat -> bool)
    returns (next: Next, t: State, waited: bool)
    requires Running(target, begin, script, s, refuses)
    ensures next.Continue? ==> Running(target, begin, script, t, refuses) && Turned(target, script, s, t)
    ensures next.Continue? ==> s.used < t.used || (s.used == t.used && |t.buffered| < |s.buffered|)
    ensures next.Stop? ==> Stopped(target, begin, script, t, next.outcome, refuses) && Left(target, script, s, next.outcome, t)
    ensures next.Stop? && next.outcome.Finished? && !waited ==> Covered(target, t, next.outcome.verdict)
  {
    waited := false;
    if s.buffered != [] {
      next, t := TakeBuffered(target, begin, script, s, refuses);
    } else if s.pending.Some? {
      next, t := TakePending(target, begin, script, s, refuses);
      waited := true;
    } else if s.used < |script| && script[s.used].Arrives? {
      next, t := TakeArrival(target, begin, script, s, refuses);
    } else if s.used < |script| && script[s.used].Lost? {
      next, t := TakeLoss(target, begin, script, s, refuses);
    } else if s.used < |script| && script[s.used].Tick? {
      next, t := TakeTick(target, begin, script, s, refuses);
    } else {
      StreamStalls(target, begin, script, s, refuses);
      next, t := Stop(Unfinished(Stream)), s;
    }
  }

  lemma {:induction false} StreamStalls(target: Target, begin: seq<Event>, script: seq<Answer>, s: State, refuses: nat -> bool)
    requires Running(target, begin, script, s, refuses) && s.buffered == [] && s.pending.None?
    requires Unanswered(script, s.used, Stream)
    ensures Stopped(target, begin, script, s, Unfinished(Stream), refuses) && Left(target, script, s, Unfinished(Stream), s)
  {
    NoneConnected(target, script, s.used, s.used);
  }

  /**
  Follows the target Turn over everything the script answers.  Events already
  buffered at the start come first.  `heads` are the states at the head of the
  loop, and `waited` tells that the terminal was made up from a clocked status
  read, after the events that were already there.
  */
  method FollowTurn(target: Target, begin: seq<Event>, script: seq<Answer>, refuses: nat -> bool)
    returns (outcome: Outcome, s: State, waited: bool, heads: seq<State>)
    ensures Stopped(target, begin, script, s, outcome, refuses)
    ensures outcome.Finished? && !waited ==> Covered(target, s, outcome.verdict)
    ensures Trail(target, begin, script, heads) && Left(target, script, heads[|heads| - 1], outcome, s)
  {
    var h := Begin(begin);
    heads := [h];
    assert Passes([]) == [];
    while true
      invariant Trail(target, begin, script, heads) && h == heads[|heads| - 1]
      invariant Running(target, begin, script, h, refuses)
      decreases |script| - h.used, |h.buffered|
    {
      var next;
      next, s, waited := TakeTurn(target, begin, script, h, refuses);
      if next.Stop? { return next.outcome, s, waited, heads; }
      TrailMore(target, begin, script, heads, s);
      h, heads := s, heads + [s];
    }
  }

  /** No event is left before the terminal of a clocked read: it is made up now. */
  method TakePending(target: Target, begin: seq<Event>, script: seq<Answer>, s: State, refuses: nat -> bool)
    returns (next: Next, t: State)
    requires Running(target, begin, script, s, refuses) && s.buffered == [] && s.pending.Some?
    ensures next.Stop? && Stopped(target, begin, script, t, next.outcome, refuses)
    ensures Left(target, script, s, next.outcome, t)
  {
    NoneConnected(target, script, s.used, s.used);
    var outcome;
    outcome, t := DeliverSynthetic(target, script, s, s.pending.value, refuses);
    next := Stop(outcome);
  }

  // ------------------------------------------------------------ what runs guarantee

  /** A run that stopped could not have ended in another way, nor gone on: where it
      stands allows one outcome, and what it waits for, if anything, is not there. */
  lemma {:induction false} EndIsDecided(target: Target, script: seq<Answer>, s: State, outcome: Outcome, other: Outcome)
    requires Explained(target, script, s, outcome) && !outcome.OutputRefused?
    ensures Explained(target, script, s, other) && !other.OutputRefused? ==> other == outcome
    ensures s.used < |script| ==> !Poses(target, script, s, script[s.used])
  {
  }

  /** A run that returns the durable end delivered exactly one terminal, as the
      last delivery, of the kind of the durable state, and that state's revision is logged. */
  lemma {:induction false} FinishedMeansOneTerminal(target: Target, script: seq<Answer>, s: State, v: Verdict)
    requires EndedWell(target, script, s, v)
    ensures s.delivered != []
    ensures var last := s.delivered[|s.delivered| - 1];
      Some(if last.Pass? then last.event.kind else last.kind) == TerminalKind(v.turn.state)
    ensures forall i :: 0 <= i < |s.delivered| ==> (s.delivered[i].IsTerminal() <==> i == |s.delivered| - 1)
    ensures var log := script[v.proof].answer.log; log.Logged? && LogsRevision(log.lines, v.session, v.turn)
  {
    ProvenIsDurable(target, script, s.used, v);
    var n := |s.delivered| - 1;
    forall i | 0 <= i < n ensures !s.delivered[i].IsTerminal() {
      assert s.delivered[..n][i] == s.delivered[i];
    }
  }

  // ------------------------------------------------- events missed on a stream

  /** The last event before head j that came on the stream still in use, if any did. */
  ghost predicate LastOnStream(script: seq<Answer>, heads: seq<State>, j: nat, last: Option<Event>)
    requires j < |heads|
  {
    if heads[j].received == [] then last == None else exists i :: ReceivedAt(script, heads, i, j, last)
  }

  /** Head i took up the last event before head j; no connection was made since, or
      else the event does not count. */
  ghost predicate ReceivedAt(script: seq<Answer>, heads: seq<State>, i: int, j: nat, last: Option<Event>)
    requires j < |heads|
  {
    && 0 <= i < j && |heads[i].received| + 1 == |heads[i + 1].received| && heads[i + 1].received == heads[j].received
    && heads[i + 1].used <= heads[j].used
    && last == if NoConnection(script, heads[i + 1].used, heads[j].used) then Some(heads[j].received[|heads[j].received| - 1]) else None
  }

  lemma {:induction false} TrailTurns(target: Target, begin: seq<Event>, script: seq<Answer>, heads: seq<State>, j: nat)
    requires Trail(target, begin, script, heads) && j < |heads|
    ensures if j == 0 then heads[0] == Begin(begin) else Turned(target, script, heads[j - 1], heads[j])
  {
    if j < |heads| - 1 { TrailTurns(target, begin, script, heads[..|heads| - 1], j); }
    else if j == 0 { assert |heads| == 1; }
  }

  lemma {:induction false} TickConnectsNothing(target: Target, script: seq<Answer>, h: State, g: State)
    requires h.used < |script| && Ticked(target, script, h, g)
    ensures NoConnection(script, h.used, g.used)
  {
    forall i | h.used <= i < g.used ensures !script[i].Connected? {
      if h.used < i < g.used - 1 { assert script[i].Read?; }
    }
  }

  /** What one turn does to what the follower remembers of the events. */
  predicate Remembers(script: seq<Answer>, h: State, g: State) {
    h.used <= g.used <= |script| &&
    if |h.received| < |g.received| then
      g.received == h.received + [g.received[|h.received|]] && g.previous == g.received[|h.received|].sequence
    else
      && g.received == h.received
      && g.previous == if NoConnection(script, h.used, g.used) then h.previous else 0
  }

  lemma {:induction false} TurnRemembers(target: Target, script: seq<Answer>, h: State, g: State)
    requires Turned(target, script, h, g)
    ensures Remembers(script, h, g)
    ensures |h.received| < |g.received| <==> |h.received| < |TakenUp(target, script, h).received|
    ensures g.highest == if |h.received| < |g.received| then Highest(target, Relay(target, g.received)) else h.highest
  {
    var u := TakenUp(target, script, h);
    if |h.received| < |u.received| {
      assert g.received == u.received && g.previous == u.previous;
    } else if Ticked(target, script, h, g) {
      TickConnectsNothing(target, script, h, g);
    }
  }

  lemma {:induction false} StaysLast(script: seq<Answer>, heads: seq<State>, i: int, j: nat, last: Option<Event>) returns (now: Option<Event>)
    requires 0 < j < |heads| && ReceivedAt(script, heads, i, j - 1, last) && Remembers(script, heads[j - 1], heads[j])
    requires heads[j].received == heads[j - 1].received
    ensures ReceivedAt(script, heads, i, j, now) && now == if NoConnection(script, heads[j - 1].used, heads[j].used) then last else None
  {
    var a, b, c := heads[i + 1].used, heads[j - 1].used, heads[j].used;
    now := if NoConnection(script, b, c) then last else None;
    NoConnectionSplits(script, a, b, c);
  }

  lemma {:induction false} NoConnectionSplits(script: seq<Answer>, a: nat, b: nat, c: nat)
    requires a <= b <= c <= |script|
    ensures NoConnection(script, a, c) <==> NoConnection(script, a, b) && NoConnection(script, b, c)
  {
  }

  /** The heads of a run, as far as the remembered events go. */
  ghost predicate Memory(target: Target, begin: seq<Event>, script: seq<Answer>, heads: seq<State>) {
    heads != [] && heads[0] == Begin(begin) && forall j :: 0 <= j < |heads| ==> Remembering(target, script, heads, j)
  }

  ghost predicate Remembering(target: Target, script: seq<Answer>, heads: seq<State>, j: int)
    requires 0 <= j < |heads|
  {
    && (j > 0 ==> Remembers(script, heads[j - 1], heads[j]))
    && heads[j].highest == Highest(target, Relay(target, heads[j].received))
  }

  lemma {:induction false} HighestKept(target: Target, script: seq<Answer>, h: State, g: State)
    requires Turned(target, script, h, g) && h.highest == Highest(target, Relay(target, h.received))
    ensures Remembers(script, h, g) && g.highest == Highest(target, Relay(target, g.received))
  {
    TurnRemembers(target, script, h, g);
  }

  lemma {:induction false} MemoryMore(target: Target, begin: seq<Event>, script: seq<Answer>, heads: seq<State>)
    requires |heads| > 1 && Memory(target, begin, script, heads[..|heads| - 1])
    requires Remembers(script, heads[|heads| - 2], heads[|heads| - 1])
    requires heads[|heads| - 1].highest == Highest(target, Relay(target, heads[|heads| - 1].received))
    ensures Memory(target, begin, script, heads)
  {
    forall j | 0 <= j < |heads| ensures Remembering(target, script, heads, j) {
      if j < |heads| - 1 { assert Remembering(target, script, heads[..|heads| - 1], j); }
    }
  }

  lemma {:induction false} MemoryEnds(target: Target, begin: seq<Event>, script: seq<Answer>, heads: seq<State>)
    requires Memory(target, begin, script, heads)
    ensures var h := heads[|heads| - 1]; h.highest == Highest(target, Relay(target, h.received))
  {
    assert Remembering(target, script, heads, |heads| - 1);
  }

  lemma {:induction false} MemoryBegins(target: Target, begin: seq<Event>, script: seq<Answer>)
    ensures Memory(target, begin, script, [Begin(begin)])
  {
  }

  lemma {:induction false} TrailIsMemory(target: Target, begin: seq<Event>, script: seq<Answer>, heads: seq<State>)
    requires Trail(target, begin, script, heads)
    ensures Memory(target, begin, script, heads)
  {
    if |heads| == 1 {
      MemoryBegins(target, begin, script);
      assert heads == [Begin(begin)];
    } else {
      var init, h, g := heads[..|heads| - 1], heads[|heads| - 2], heads[|heads| - 1];
      TrailIsMemory(target, begin, script, init);
      MemoryEnds(target, begin, script, init);
      HighestKept(target, script, h, g);
      MemoryMore(target, begin, script, heads);
    }
  }

  /** The sequence number the follower remembers is that of the last event on its stream. */
  lemma {:induction false} RemembersLast(target: Target, begin: seq<Event>, script: seq<Answer>, heads: seq<State>, j: nat)
      returns (last: Option<Event>)
    requires Memory(target, begin, script, heads) && j < |heads|
    ensures LastOnStream(script, heads, j, last)
    ensures heads[j].previous == if last.Some? then last.value.sequence else 0
  {
    if j == 0 { return None; }
    var h, g := heads[j - 1], heads[j];
    last := RemembersLast(target, begin, script, heads, j - 1);
    assert Remembering(target, script, heads, j);
    if |h.received| < |g.received| {
      last := Some(g.received[|g.received| - 1]);
      assert ReceivedAt(script, heads, j - 1, j, last);
    } else if g.received != [] {
      var i :| ReceivedAt(script, heads, i, j - 1, last);
      last := StaysLast(script, heads, i, j, last);
    }
  }

  /** An event is missing between the last one on the stream and this one, which matters to the Turn. */
  predicate Skips(last: Option<Event>, e: Event) {
    !Exempt(e.kind) && last.Some? && last.value.sequence != 0 && e.sequence > last.value.sequence + 1
  }

  /** The event is passed on, and only together with the durable state: a terminal or a notice of recovery. */
  ghost predicate NeedsConfirming(target: Target, before: seq<Event>, e: Event) {
    && !Exempt(e.kind) && Relay(target, before + [e]) == Relay(target, before) + [e]
    && (Terminal(e.kind) || (e.kind == ActionRequired && e.recovery))
  }

  lemma {:induction false} TakenUpFlags(target: Target, script: seq<Answer>, h: State, last: Option<Event>)
    requires h.highest == Highest(target, Relay(target, h.received))
    requires h.previous == if last.Some? then last.value.sequence else 0
    requires |h.received| < |TakenUp(target, script, h).received|
    ensures var u := TakenUp(target, script, h); var e := u.received[|h.received|];
      && u.received == h.received + [e] && (u.at.gap <==> Skips(last, e))
      && (u.at.confirm <==> NeedsConfirming(target, h.received, e))
      && u.at.from == u.used == if h.buffered == [] then h.used + 1 else h.used
  {
    var u := TakenUp(target, script, h);
    var e := u.received[|h.received|];
    RelayLast(target, h.received + [e]);
    assert (h.received + [e])[..|h.received|] == h.received;
  }

  /** How many durable reads an event asks for. */
  ghost function AskedReads(target: Target, before: seq<Event>, last: Option<Event>, e: Event): nat {
    (if Skips(last, e) then 1 else 0) + (if NeedsConfirming(target, before, e) then 1 else 0)
  }

  /** The position after the event that head h takes up: it came as an answer, or was there already. */
  function Came(h: State): nat {
    if h.buffered == [] then h.used + 1 else h.used
  }

  /** From head to head: one event, and all the durable reads it asks for right after it. */
  ghost predicate TakesReads(target: Target, script: seq<Answer>, h: State, last: Option<Event>, g: State) {
    g.received != [] &&
    var e := g.received[|g.received| - 1];
    && g.received == h.received + [e] && g.used == Came(h) + AskedReads(target, h.received, last, e)
    && g.used <= |script| && OnlyReads(script, Came(h), g.used)
  }

  /** From the last head to the end: one event, and no more durable reads than it asks
      for; without the one for a missed event the run is left waiting for it. */
  ghost predicate StopsForReads(
    target: Target, script: seq<Answer>, h: State, last: Option<Event>, outcome: Outcome, s: State)
  {
    s.received != [] &&
    var e := s.received[|s.received| - 1];
    && s.received == h.received + [e] && Came(h) <= s.used <= Came(h) + AskedReads(target, h.received, last, e)
    && s.used <= |script| && OnlyReads(script, Came(h), s.used)
    && (Skips(last, e) && s.used == Came(h) ==> outcome == Unfinished(Durable))
  }

  /** Over every run, for every event that was dealt with: exactly as many durable
      reads were used for it, right after it came, as it asks for.  One is asked
      for when its sequence number shows that an event on its stream was missed,
      and one more when it is passed on and needs confirming. */
  lemma {:induction false} MissedEventsAreReadFor(
      target: Target, begin: seq<Event>, script: seq<Answer>, heads: seq<State>, j: nat) returns (last: Option<Event>)
    requires Trail(target, begin, script, heads) && j + 1 < |heads| && heads[j].received != heads[j + 1].received
    ensures LastOnStream(script, heads, j, last)
    ensures TakesReads(target, script, heads[j], last, heads[j + 1])
  {
    TrailIsMemory(target, begin, script, heads);
    last := RemembersLast(target, begin, script, heads, j);
    TrailTurns(target, begin, script, heads, j + 1);
    assert Remembering(target, script, heads, j);
    EventTurn(target, script, heads[j], last, heads[j + 1]);
  }

  lemma {:induction false} EventTurn(target: Target, script: seq<Answer>, h: State, last: Option<Event>, g: State)
    requires Turned(target, script, h, g) && h.received != g.received
    requires h.highest == Highest(target, Relay(target, h.received))
    requires h.previous == if last.Some? then last.value.sequence else 0
    ensures TakesReads(target, script, h, last, g)
  {
    TurnRemembers(target, script, h, g);
    TakenUpFlags(target, script, h, last);
    EventReads(target, script, TakenUp(target, script, h), g.used);
  }

  /** What is used for an event up to the reads it asks for is durable reads. */
  lemma {:induction false} EventReads(target: Target, script: seq<Answer>, u: State, b: nat)
    requires u.received != [] && u.at.from == u.used && u.used <= b <= u.at.Due() && Onward(target, script, u, b)
    ensures b <= |script| && OnlyReads(script, u.used, b)
    decreases b
  {
    if b > u.used {
      EventReads(target, script, u, b - 1);
      ReadsBringNothing(script, u.used, b - 1);
      assert Moved(script, u, b - 1) == u.(used := b - 1) && InEvent(script, u.(used := b - 1));
      assert b - 1 < u.at.Due();
      UnderwayWaits(target, script, u.(used := b - 1));
    }
  }

  lemma {:induction false} UnderwayWaits(target: Target, script: seq<Answer>, s: State)
    requires InEvent(script, s) && s.used < s.at.Due() && DuringEvent(target, script, s).Waits?
    ensures DuringEvent(target, script, s) == Waits(Durable) || (s.used == s.at.Reading() && !s.at.confirm)
  {
  }

  /** And for the event with which a run ends: without the read that a missed event
      asks for the run stops waiting for it, and an event that asks for none uses none. */
  lemma {:induction false} MissedEventStopsTheRun(
      target: Target, begin: seq<Event>, script: seq<Answer>, heads: seq<State>, outcome: Outcome, s: State) returns (last: Option<Event>)
    requires Trail(target, begin, script, heads) && Left(target, script, heads[|heads| - 1], outcome, s)
    requires heads[|heads| - 1].received != s.received
    ensures LastOnStream(script, heads, |heads| - 1, last)
    ensures StopsForReads(target, script, heads[|heads| - 1], last, outcome, s)
  {
    TrailIsMemory(target, begin, script, heads);
    last := RemembersLast(target, begin, script, heads, |heads| - 1);
    assert Remembering(target, script, heads, |heads| - 1);
    EventEnd(target, script, heads[|heads| - 1], last, outcome, s);
  }

  lemma {:induction false} EventEnd(target: Target, script: seq<Answer>, h: State, last: Option<Event>, outcome: Outcome, s: State)
    requires Left(target, script, h, outcome, s) && h.received != s.received
    requires h.highest == Highest(target, Relay(target, h.received))
    requires h.previous == if last.Some? then last.value.sequence else 0
    ensures StopsForReads(target, script, h, last, outcome, s)
  {
    var u := TakenUp(target, script, h);
    assert s.received == u.received && s.at == u.at;
    TakenUpFlags(target, script, h, last);
    EventReads(target, script, u, s.used);
    if u.at.gap && s.used == u.used { UnreadGapStalls(target, script, s, outcome); }
  }

  lemma {:induction false} UnreadGapStalls(target: Target, script: seq<Answer>, s: State, outcome: Outcome)
    requires s.received != [] && s.at.gap && s.used == s.at.from && Explained(target, script, s, outcome)
    ensures outcome == Unfinished(Durable)
  {
    assert InEvent(script, s);
  }

  /** The durable terminal revision is the Turn's largest. */
  ghost predicate Capped(target: Target, begin: seq<Event>, script: seq<Answer>) {
    forall e, k | e in begin + EventsIn(script, |script|) && Bound(e, target) && 0 <= k < |script|
      && script[k].Read? && Reconcile(script[k].answer, target, None).Ended? ::
      TargetRevision(e, target).value <= Reconcile(script[k].answer, target, None).turn.revision
  }

  lemma {:induction false} HighestAttained(target: Target, relayed: seq<Event>) returns (e: Event)
    requires Highest(target, relayed).Some?
    ensures e in relayed && Bound(e, target) && TargetRevision(e, target) == Highest(target, relayed)
  {
    var before, last := relayed[..|relayed| - 1], relayed[|relayed| - 1];
    if Bound(last, target) && Highest(target, relayed) == TargetRevision(last, target) {
      e := last;
    } else {
      e := HighestAttained(target, before);
    }
  }

  lemma {:induction false} RelayedWereReceived(target: Target, received: seq<Event>, e: Event)
    requires e in Relay(target, received)
    ensures e in received
  {
    var before, last := received[..|received| - 1], received[|received| - 1];
    if e in Relay(target, before) { RelayedWereReceived(target, before, e); } else { assert e == last; }
  }

  lemma {:induction false} EventsStay(script: seq<Answer>, n: nat, m: nat, e: Event)
    requires n <= m <= |script| && e in EventsIn(script, n)
    ensures e in EventsIn(script, m)
    decreases m
  {
    if n < m { EventsStay(script, n, m - 1, e); }
  }

  /** The verdict is at or above every relayed revision, also when it had to wait. */
  lemma {:induction false} VerdictIsHighest(target: Target, begin: seq<Event>, script: seq<Answer>, s: State, v: Verdict)
    requires Accounts(begin, script, s) && Proven(target, script, s.used, v) && Capped(target, begin, script)
    ensures Covered(target, s, v)
  {
    var relayed := Relay(target, s.received);
    if Highest(target, relayed).Some? {
      var e := HighestAttained(target, relayed);
      RelayedWereReceived(target, s.received, e);
      assert e in s.received + s.buffered;
      if e in EventsIn(script, s.used) { EventsStay(script, s.used, |script|, e); }
      assert e in begin + EventsIn(script, |script|);
      assert script[v.proof].Read?;
    }
  }

  // ------------------------------------------------- subscribing before reading

  /** A Turn's committed states, oldest first; only the last may be terminal. */
  ghost predicate EndsTerminal(history: seq<TurnState>) {
    history != [] && TerminalKind(history[|history| - 1]).Some? &&
    forall i :: 0 <= i < |history| - 1 ==> TerminalKind(history[i]).None?
  }

  /** The state a status read shows after n commits, if any was made. */
  function StateAfter(history: seq<TurnState>, n: nat): Option<TurnState> {
    if n == 0 || history == [] then None else Some(history[if n <= |history| then n - 1 else |history| - 1])
  }

  /** A stream subscribed after n commits brings the terminal one. */
  predicate StreamBrings(history: seq<TurnState>, n: nat) {
    exists k :: n <= k < |history| && TerminalKind(history[k]).Some?
  }

  /** The target Turn goes through this history while the answers are given:
      seen[i] commits have been made at answer i, and every status read that
      finds the Turn shows its state at that moment. */
  ghost predicate Timeline(target: Target, history: seq<TurnState>, seen: seq<nat>, script: seq<Answer>) {
    && EndsTerminal(history) && |seen| == |script|
    && (forall i, j :: 0 <= i <= j < |seen| ==> seen[i] <= seen[j])
    && forall i :: 0 <= i < |script| && script[i].Read? && script[i].answer.Status? ==>
      var found := FindTurn(script[i].answer.session.turns, target.turn);
      found.Some? ==> StateAfter(history, seen[i]) == Some(found.value.state)
  }

  /** A stream the follower goes on with brings the terminal commit: the Turn
      was read as active after the stream had been subscribed. */
  lemma {:induction false} NoTerminalLostOnReconnect(
    target: Target, history: seq<TurnState>, seen: seq<nat>, script: seq<Answer>, c: nat, r: nat, minimum: Option<nat>)
    requires Timeline(target, history, seen, script) && Reattached(target, script, c, r, minimum)
    ensures StreamBrings(history, seen[c])
  {
    assert script[r].Read? && seen[c] <= seen[r];
    var found := FindTurn(script[r].answer.session.turns, target.turn).value;
    assert StateAfter(history, seen[r]) == Some(found.state) && TerminalKind(found.state).None?;
    assert TerminalKind(history[|history| - 1]).Some?;
  }

  /** In every run, each stream that was subscribed brings the terminal commit,
      unless the run ended in the reads right after its subscription. */
  lemma {:induction false} EveryStreamKeptBringsTheEnd(
    target: Target, history: seq<TurnState>, seen: seq<nat>, script: seq<Answer>, n: nat, c: nat)
    requires Watched(target, script, n) && Timeline(target, history, seen, script)
    requires c < n && script[c].Connected?
    ensures StreamBrings(history, seen[c]) || OnlyReads(script, c + 1, n)
  {
    if !OnlyReads(script, c + 1, n) {
      var r, minimum :| r < n && Reattached(target, script, c, r, minimum);
      NoTerminalLostOnReconnect(target, history, seen, script, c, r, minimum);
    }
  }

  /** Subscribing before reading is what matters: with the two the other way
      round, every read of an active Turn is followed by some history whose
      terminal commit neither the read shows nor the stream brings. */
  lemma {:induction false} OrderDecides(target: Target, answer: ReadAnswer, subscribesFirst: bool)
    requires Reconcile(answer, target, None) == Active
    ensures var script := if subscribesFirst then [Connected, Read(answer)] else [Read(answer), Connected];
      subscribesFirst <==> forall history, seen | Timeline(target, history, seen, script) ::
        StreamBrings(history, seen[if subscribesFirst then 0 else 1])
  {
    var script := if subscribesFirst then [Connected, Read(answer)] else [Read(answer), Connected];
    if subscribesFirst {
      forall history, seen | Timeline(target, history, seen, script) ensures StreamBrings(history, seen[0]) {
        NoTerminalLostOnReconnect(target, history, seen, script, 0, 1, None);
      }
    } else {
      var state := FindTurn(answer.session.turns, target.turn).value.state;
      var history, seen := [state, TurnState.Completed], [1, 2];
      assert Timeline(target, history, seen, script);
      assert !StreamBrings(history, seen[1]);
    }
  }
}
