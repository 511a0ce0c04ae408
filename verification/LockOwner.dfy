/**
The owner side of the Bootstrap Lock: retiring a finished attempt's markers,
the command loop after READY, and what happens to the claim when the
Controller's channel closes.
*/
module LockOwner {
  import opened Options
  import opened LockEvidence

  // -------------------------------------------------------------- retirement

  datatype FileOp = Rename(from: Marker, to: Marker) | Rmdir(marker: Marker)

  function ApplyOp(markers: Markers, op: FileOp): Markers {
    match op
    case Rename(from, to) => if from in markers then (markers - {from})[to := markers[from]] else markers
    case Rmdir(marker) => markers - {marker}
  }

  /** The terminal marker retirement removes: a failure marker wins over the phase's own. */
  function RetiredKind(markers: Markers, phase: Phase, attempt: string): MarkerKind {
    if Has(markers, Marker(Failed, attempt)) then Failed else TerminalKind(phase)
  }

  /** The marker set is exactly one finished attempt: its started and terminal
      directories, plus the launcher's own result for a daemon start. */
  predicate Retirable(markers: Markers, phase: Phase, attempt: string) {
    && Recoverable(phase)
    && Has(markers, Marker(Started, attempt))
    && Has(markers, Marker(RetiredKind(markers, phase, attempt), attempt))
    && forall marker :: marker in markers ==>
         markers[marker] && marker.attempt == attempt &&
         (marker.kind == Started || marker.kind == RetiredKind(markers, phase, attempt) ||
          (marker.kind == Succeeded && phase == DaemonStart))
  }

  /** The file operations of a retirement, in order. */
  function RetireOps(markers: Markers, phase: Phase, attempt: string): seq<FileOp> {
    var start := Rename(Marker(Started, attempt), Marker(Retiring, attempt));
    var terminal := Rmdir(Marker(RetiredKind(markers, phase, attempt), attempt));
    var launcher := Rmdir(Marker(Succeeded, attempt));
    var end := Rmdir(Marker(Retiring, attempt));
    if phase == DaemonStart && launcher != terminal && Has(markers, launcher.marker)
    then [start, terminal, launcher, end] else [start, terminal, end]
  }

  /** The markers after the first `done` operations of a retirement took effect. */
  function RetiredTo(markers: Markers, phase: Phase, attempt: string, done: nat): Markers {
    if done == 0 then markers else
    var before := RetiredTo(markers, phase, attempt, done - 1);
    var ops := RetireOps(markers, phase, attempt);
    if done <= |ops| then ApplyOp(before, ops[done - 1]) else before
  }

  lemma {:induction false} RetiredToStep(markers: Markers, phase: Phase, attempt: string, k: nat)
    requires 0 < k <= |RetireOps(markers, phase, attempt)|
    ensures RetiredTo(markers, phase, attempt, k) ==
      ApplyOp(RetiredTo(markers, phase, attempt, k - 1), RetireOps(markers, phase, attempt)[k - 1])
  {
  }

  lemma {:induction false} RetiredToEnd(markers: Markers, phase: Phase, attempt: string, done: nat)
    requires done >= |RetireOps(markers, phase, attempt)|
    ensures RetiredTo(markers, phase, attempt, done) ==
      RetiredTo(markers, phase, attempt, |RetireOps(markers, phase, attempt)|)
  {
    if done > |RetireOps(markers, phase, attempt)| {
      RetiredToEnd(markers, phase, attempt, done - 1);
    }
  }

  /** What every crash point after the rename looks like. */
  predicate OnTrail(was: Markers, phase: Phase, attempt: string, done: nat, m: Markers) {
    && (forall marker :: marker in m ==> m[marker] && marker.attempt == attempt)
    && (forall marker :: marker in m && marker.kind != Retiring ==> marker in was)
    && Marker(Started, attempt) !in m
    && (Marker(RetiredKind(was, phase, attempt), attempt) in m <==> done == 1)
    && (Marker(Retiring, attempt) in m <==> done < |RetireOps(was, phase, attempt)|)
    && (Marker(Succeeded, attempt) in m && done > 1 ==> done == 2 && |RetireOps(was, phase, attempt)| == 4)
    && (done >= |RetireOps(was, phase, attempt)| ==> m == map[])
  }

  lemma {:induction false} RenameStartsTrail(was: Markers, phase: Phase, attempt: string)
    requires Retirable(was, phase, attempt)
    ensures OnTrail(was, phase, attempt, 1, ApplyOp(was, RetireOps(was, phase, attempt)[0]))
  {
    assert Marker(Started, attempt) in was;
  }

  lemma {:induction false} RmdirStaysOnTrail(was: Markers, phase: Phase, attempt: string, done: nat, m: Markers)
    requires Retirable(was, phase, attempt)
    requires 0 < done < |RetireOps(was, phase, attempt)| && OnTrail(was, phase, attempt, done, m)
    ensures OnTrail(was, phase, attempt, done + 1, ApplyOp(m, RetireOps(was, phase, attempt)[done]))
  {
    var ops := RetireOps(was, phase, attempt);
    var next := ApplyOp(m, ops[done]);
    if done + 1 == |ops| {
      forall marker ensures marker !in next {
        if marker in m { assert marker == Marker(marker.kind, attempt); }
      }
    }
  }

  /** Every crash point of a retirement after its rename. */
  lemma {:induction false} RetirementTrail(was: Markers, phase: Phase, attempt: string, done: nat)
    requires Retirable(was, phase, attempt) && 0 < done
    ensures OnTrail(was, phase, attempt, done, RetiredTo(was, phase, attempt, done))
  {
    var ops := RetireOps(was, phase, attempt);
    if done == 1 {
      assert RetiredTo(was, phase, attempt, 0) == was;
      RenameStartsTrail(was, phase, attempt);
    } else {
      RetirementTrail(was, phase, attempt, done - 1);
      if done <= |ops| {
        RmdirStaysOnTrail(was, phase, attempt, done - 1, RetiredTo(was, phase, attempt, done - 1));
      }
    }
  }

  /** The kinds left at a crash point after the rename. */
  lemma {:induction false} TrailKinds(c: Claim, done: nat)
    requires Retirable(c.markers, c.phase, c.attempt) && 0 < done
    ensures var d := c.(markers := RetiredTo(c.markers, c.phase, c.attempt, done));
      && OwnMarkers(d) && Started !in KindsOf(d.markers)
      && (forall kind :: kind in KindsOf(d.markers) <==> Marker(kind, c.attempt) in d.markers)
      && (KindsOf(d.markers) == {} <==> done >= |RetireOps(c.markers, c.phase, c.attempt)|)
      && (KindsOf(d.markers) != {} ==> Retiring in KindsOf(d.markers))
      && (forall kind :: kind in KindsOf(d.markers) && kind != Retiring ==> Marker(kind, c.attempt) in c.markers)
      && (RetiredKind(c.markers, c.phase, c.attempt) in KindsOf(d.markers) <==> done == 1)
  {
    RetirementTrail(c.markers, c.phase, c.attempt, done);
    var markers := RetiredTo(c.markers, c.phase, c.attempt, done);
    forall kind ensures kind in KindsOf(markers) <==> Marker(kind, c.attempt) in markers {
      if kind in KindsOf(markers) {
        var marker :| marker in markers && marker.kind == kind;
        assert marker == Marker(kind, c.attempt);
      }
      assert Marker(kind, c.attempt) in markers ==> Marker(kind, c.attempt).kind in KindsOf(markers);
    }
  }

  lemma {:induction false} RetiringMayBeTaken(c: Claim, found: set<MarkerKind>, p: Probes)
    requires Retirable(c.markers, c.phase, c.attempt) && Started !in found && Retiring in found
    requires forall kind :: kind in found && kind != Retiring ==> Marker(kind, c.attempt) in c.markers
    ensures MayBeTaken(c.phase, c.kind, found, p) <==> !(c.phase == DaemonStart && Failed in found)
  {
    var ending := RetiredKind(c.markers, c.phase, c.attempt);
    EndingIsTerminal(c.phase);
    forall kind | kind in found ensures kind == Retiring || kind == ending || (kind == Succeeded && c.phase == DaemonStart) {
      if kind != Retiring { assert Marker(kind, c.attempt) in c.markers; }
    }
    if c.phase != DaemonStart { SameKinds(found, if ending in found then {Retiring, ending} else {Retiring}); }
  }

  /** Crash atomicity of retirement, with the rename of the started marker as its
      commit point.  After the rename the outcome no longer depends on any probe:
      an abandoned claim is taken at every crash point, except that a daemon start
      stays fenced for as long as its failure marker is still there. */
  lemma {:induction false} RetirementCommitsAtRename(c: Claim, now: int, done: nat, p: Probes)
    requires InMutation(c.state) && Retirable(c.markers, c.phase, c.attempt) && 0 < done
    ensures var d := c.(markers := RetiredTo(c.markers, c.phase, c.attempt, done));
      Accepts(d, now, p) <==>
        && Abandoned(c, now) && Attributed(c)
        && !(c.phase == DaemonStart && done == 1 && Marker(Failed, c.attempt) in c.markers)
  {
    var d := c.(markers := RetiredTo(c.markers, c.phase, c.attempt, done));
    AcceptedExactly(d, now, p);
    TrailKinds(c, done);
    if KindsOf(d.markers) != {} {
      RetiringMayBeTaken(c, KindsOf(d.markers), p);
      assert Failed in KindsOf(d.markers) ==> Marker(Failed, c.attempt) in c.markers;
      assert Marker(Failed, c.attempt) in c.markers ==> RetiredKind(c.markers, c.phase, c.attempt) == Failed;
    }
  }

  lemma {:induction false} RetirableKinds(c: Claim)
    requires Retirable(c.markers, c.phase, c.attempt)
    ensures OwnMarkers(c) && (forall kind :: kind in KindsOf(c.markers) <==> Marker(kind, c.attempt) in c.markers)
    ensures var found, ending := KindsOf(c.markers), RetiredKind(c.markers, c.phase, c.attempt);
      found == {Started, ending} || (c.phase == DaemonStart && found == {Started, Succeeded, ending})
  {
    var found, ending := KindsOf(c.markers), RetiredKind(c.markers, c.phase, c.attempt);
    forall kind ensures kind in found <==> Marker(kind, c.attempt) in c.markers {
      if kind in found {
        var marker :| marker in c.markers && marker.kind == kind;
        assert marker == Marker(kind, c.attempt);
      }
      assert Marker(kind, c.attempt) in c.markers ==> Marker(kind, c.attempt).kind in found;
    }
    assert forall kind :: kind in found ==> kind == Started || kind == ending || (kind == Succeeded && c.phase == DaemonStart);
  }

  /** Before the rename an abandoned claim with a finished attempt is taken exactly
      when the attempt ended without failing, or when it is a daemon's first start
      that failed and the probes find the host quiet. */
  lemma {:induction false} RetirementBeforeRename(c: Claim, now: int, p: Probes)
    requires InMutation(c.state) && Retirable(c.markers, c.phase, c.attempt)
    ensures Accepts(c, now, p) <==>
      && Abandoned(c, now) && Attributed(c)
      && (|| Marker(Failed, c.attempt) !in c.markers
          || (&& c.phase == DaemonStart && Marker(Succeeded, c.attempt) !in c.markers
              && (c.kind == InitialSetup || c.kind == MissingDaemonRepair)
              && p.process == No && p.service == No && p.daemon == No))
  {
    AcceptedExactly(c, now, p);
    RetirableKinds(c);
    var found := KindsOf(c.markers);
    EndingIsTerminal(c.phase);
    SameKinds(found, {Started, Failed});
    SameKinds(found, {Started, Committed});
    SameKinds(found, {Started, Succeeded, Committed});
    SameKinds(found, {Started, Succeeded});
    assert Failed in found <==> Marker(Failed, c.attempt) in c.markers;
    assert Succeeded in found <==> Marker(Succeeded, c.attempt) in c.markers;
  }

  // ------------------------------------------------------------ channel loss

  /** A terminal marker that may lie beside the started or retiring marker. */
  predicate Beside(marker: Marker, phase: Phase, attempt: string) {
    marker == Marker(TerminalKind(phase), attempt) ||
    (phase == DaemonStart && marker == Marker(Succeeded, attempt))
  }

  predicate ExactlyWith(main: Marker, markers: Markers, phase: Phase, attempt: string) {
    main in markers && forall marker :: marker in markers ==> marker == main || Beside(marker, phase, attempt)
  }

  /** The marker sets with which an interrupted claim may be closed for good. */
  predicate Closable(markers: Markers, phase: Phase, attempt: string) {
    && (forall marker :: marker in markers ==> markers[marker])
    && (|| markers == map[]
        || ExactlyWith(Marker(Retiring, attempt), markers, phase, attempt)
        || (ExactlyWith(Marker(Started, attempt), markers, phase, attempt) &&
            Marker(TerminalKind(phase), attempt) in markers))
  }

  datatype Ending = CleanFailed | ReconciledFailed

  // -------------------------------------------------------------- owner loop

  datatype Line =
    | HeartbeatLine(now: int)
    | StartedLine(words: nat, phase: Phase, attempt: string)
    | CommittedLine(words: nat, phase: Phase, attempt: string)
    | ExecutingLine(words: nat, phase: Phase, attempt: string)
    | ReleaseLine
    | OtherLine

  datatype Outcome = Silent | Echoed | Exited(code: nat) | Released

  predicate PhaseChar(c: char) {
    'A' <= c <= 'Z' || 'a' <= c <= 'z' || '0' <= c <= '9' || c == '_' || c == '-'
  }

  predicate PhaseToken(phase: Phase) {
    phase.OtherPhase? ==> phase.token != "" && forall i :: 0 <= i < |phase.token| ==> PhaseChar(phase.token[i])
  }

  /** The script's variables together with what lies at its claim path.  `dir` is
      None while a contender holds the claim in quarantine or after removal. */
  datatype OwnerState = OwnerState(
    operation: string,
    identity: string,
    dir: Option<Claim>,
    started: bool,
    phase: Phase,
    attempt: string,
    uncertain: bool,
    released: bool,
    ending: Option<Ending>)
  {
    predicate SameOwner() {
      dir.Some? && dir.value.operation == operation && dir.value.identity == identity
    }

    function WithMarkers(markers: Markers): OwnerState
      requires dir.Some?
    {
      this.(dir := Some(dir.value.(markers := markers)))
    }
  }

  predicate WellFormedStart(line: Line)
    requires line.StartedLine?
  {
    line.words == 2 && PhaseToken(line.phase) && Hex32(line.attempt)
  }

  /** A phase advance is admitted: nothing has run yet, or the recorded attempt
      is finished, differs from the new one and can be retired completely. */
  predicate Admits(s: OwnerState, line: Line, done: nat)
    requires line.StartedLine? && s.dir.Some?
  {
    var markers := s.dir.value.markers;
    if s.started then
      line.attempt != s.attempt && Retirable(markers, s.phase, s.attempt) &&
      done >= |RetireOps(markers, s.phase, s.attempt)|
    else markers == map[]
  }

  /** Specification of one command.  `done` counts the file operations of a
      retirement that succeed before one fails. */
  function Handle(s: OwnerState, line: Line, done: nat): (OwnerState, Outcome) {
    if !s.SameOwner() then (s, Exited(75)) else
    var c := s.dir.value;
    match line
    case HeartbeatLine(now) => (s.(dir := Some(c.(heartbeat := Some(now)))), Silent)
    case StartedLine(_, phase, attempt) =>
      if !WellFormedStart(line) then (s, Exited(64))
      else if Admits(s, line, done) then
        (s.(dir := Some(c.(phase := phase, attempt := attempt, state := MutationStarted, markers := map[])),
            started := true, phase := phase, attempt := attempt), Echoed)
      else if s.started && line.attempt != s.attempt && Retirable(c.markers, s.phase, s.attempt) then
        (s.WithMarkers(RetiredTo(c.markers, s.phase, s.attempt, done)).(uncertain := true), Exited(75))
      else (s.(uncertain := true), Exited(75))
    case CommittedLine(words, phase, attempt) =>
      if words == 2 && phase == s.phase && attempt == s.attempt &&
         Has(c.markers, Marker(Started, s.attempt)) && Marker(Committed, s.attempt) !in c.markers
      then (s.WithMarkers(c.markers[Marker(Committed, s.attempt) := true]), Echoed)
      else (s, Exited(75))
    case ExecutingLine(words, phase, attempt) =>
      if words == 2 && phase == s.phase && attempt == s.attempt && Marker(Started, s.attempt) !in c.markers
      then (s.WithMarkers(c.markers[Marker(Started, s.attempt) := true]), Echoed)
      else (s, Exited(75))
    case ReleaseLine => (s.(dir := None, released := true), Released)
    case OtherLine => (s, Echoed)
  }

  /** Specification of the exit trap. */
  function Cleaned(s: OwnerState): OwnerState {
    if s.released || !s.SameOwner() then s else
    var c := s.dir.value;
    if s.uncertain then s.(dir := Some(c.(state := RecoveryPending)))
    else if !s.started then s.(dir := None, ending := Some(CleanFailed))
    else if Closable(c.markers, s.phase, s.attempt) then
      s.(dir := None, ending := Some(if c.markers == map[] then CleanFailed else ReconciledFailed))
    else s.(dir := Some(c.(state := RecoveryPending)))
  }

  /** The owner process with its variables and its claim directory. */
  class Owner {
    const operation: string
    const identity: string
    var dir: Option<Claim>
    var started: bool
    var phase: Phase
    var attempt: string
    var uncertain: bool
    var released: bool
    var ending: Option<Ending>

    function State(): OwnerState
      reads this
    {
      OwnerState(operation, identity, dir, started, phase, attempt, uncertain, released, ending)
    }

    constructor (claim: Claim, leftoverPhase: Phase, leftoverAttempt: string)
      ensures State() == OwnerState(claim.operation, claim.identity, Some(claim), false,
                                    leftoverPhase, leftoverAttempt, false, false, None)
    {
      operation, identity, dir := claim.operation, claim.identity, Some(claim);
      started, phase, attempt := false, leftoverPhase, leftoverAttempt;
      uncertain, released, ending := false, false, None;
    }

    method SetMarkers(markers: Markers)
      requires dir.Some?
      modifies this`dir
      ensures dir == Some(old(dir).value.(markers := markers))
    {
      dir := Some(dir.value.(markers := markers));
    }

    method HasExecutionMarkers(listing: seq<Marker>) returns (found: bool)
      requires dir.Some? && forall marker :: marker in listing <==> marker in dir.value.markers
      ensures found <==> dir.value.markers != map[]
    {
      if |listing| > 0 {
        assert listing[0] in dir.value.markers;
        return true;
      }
      assert dir.value.markers.Keys == {};
      return false;
    }

    /** The marker check that precedes a retirement. */
    method CheckRetirable(listing: seq<Marker>) returns (ok: bool)
      requires dir.Some? && forall marker :: marker in listing <==> marker in dir.value.markers
      ensures ok == Retirable(dir.value.markers, phase, attempt)
    {
      var markers := dir.value.markers;
      if !Recoverable(phase) { return false; }
      var terminal := Marker(TerminalKind(phase), attempt);
      if Has(markers, Marker(Failed, attempt)) { terminal := Marker(Failed, attempt); }
      var startedPath, launcher := Marker(Started, attempt), Marker(Succeeded, attempt);
      if !Has(markers, startedPath) || Marker(Retiring, attempt) in markers || !Has(markers, terminal) { return false; }
      for i := 0 to |listing|
        invariant forall j | 0 <= j < i ::
          markers[listing[j]] &&
          (listing[j] == startedPath || listing[j] == terminal || (listing[j] == launcher && phase == DaemonStart))
      {
        var marker := listing[i];
        if marker == startedPath || marker == terminal {
          if !markers[marker] { return false; }
        } else if marker == launcher {
          if !(phase == DaemonStart && markers[marker]) { return false; }
        } else {
          return false;
        }
      }
      return true;
    }

    /** Checks the marker set, then renames and removes one marker at a time.
        `done` operations take effect; the next one fails. */
    method RetireTerminalAttempt(listing: seq<Marker>, done: nat) returns (ok: bool)
      requires dir.Some? && forall marker :: marker in listing <==> marker in dir.value.markers
      modifies this`dir
      ensures dir.Some?
      ensures var was := old(dir).value.markers;
        && ok == (Retirable(was, phase, attempt) && done >= |RetireOps(was, phase, attempt)|)
        && dir == Some(old(dir).value.(markers :=
             if Retirable(was, phase, attempt) then RetiredTo(was, phase, attempt, done) else was))
      ensures ok ==> dir.value.markers == map[]
    {
      var was := dir.value.markers;
      assert dir == Some(dir.value.(markers := was));
      var retirable := CheckRetirable(listing);
      if !retirable { return false; }
      var terminal := Marker(RetiredKind(was, phase, attempt), attempt);
      var retiringPath, launcher := Marker(Retiring, attempt), Marker(Succeeded, attempt);
      ghost var ops := RetireOps(was, phase, attempt);
      if done == 0 { return false; }
      RetiredToStep(was, phase, attempt, 1);
      SetMarkers(ApplyOp(was, Rename(Marker(Started, attempt), retiringPath)));
      assert dir.value.markers == RetiredTo(was, phase, attempt, 1);
      if done == 1 { return false; }
      RetiredToStep(was, phase, attempt, 2);
      SetMarkers(dir.value.markers - {terminal});
      assert dir.value.markers == RetiredTo(was, phase, attempt, 2);
      var used := 2;
      if phase == DaemonStart && launcher != terminal && Has(was, launcher) {
        if done == used { return false; }
        RetiredToStep(was, phase, attempt, 3);
        SetMarkers(dir.value.markers - {launcher});
        assert dir.value.markers == RetiredTo(was, phase, attempt, 3);
        used := 3;
      }
      if done == used { return false; }
      RetiredToStep(was, phase, attempt, used + 1);
      SetMarkers(dir.value.markers - {retiringPath});
      assert dir.value.markers == RetiredTo(was, phase, attempt, used + 1);
      assert used + 1 == |ops|;
      RetiredToEnd(was, phase, attempt, done);
      RetirementTrail(was, phase, attempt, done);
      return true;
    }

    /** Sorts the markers of the closing directory and either removes the claim
        with a terminal record or puts it back as recovery pending. */
    method FinalizeInterruptedClaim(listing: seq<Marker>)
      requires dir.Some? && forall marker :: marker in listing <==> marker in dir.value.markers
      modifies this`dir, this`ending
      ensures var c := old(dir).value;
        if Closable(c.markers, phase, attempt)
        then dir == None && ending == Some(if c.markers == map[] then CleanFailed else ReconciledFailed)
        else dir == Some(c.(state := RecoveryPending)) && ending == old(ending)
    {
      var closing := dir.value;
      dir := None;
      var markers := closing.markers;
      var startedPath, retiringPath := Marker(Started, attempt), Marker(Retiring, attempt);
      var currentStarted := Has(markers, startedPath);
      var currentRetiring := Has(markers, retiringPath);
      var terminal := Marker(TerminalKind(phase), attempt);
      var launcher := Marker(Succeeded, attempt);
      var present, invalid := false, false;
      for i := 0 to |listing|
        invariant present <==> i > 0
        invariant !invalid <==> forall j | 0 <= j < i :: Orderly(listing[j], markers, phase, attempt)
      {
        var marker := listing[i];
        present := true;
        if marker == startedPath {
          if !currentStarted { invalid := true; }
        } else if marker == retiringPath {
          if !currentRetiring { invalid := true; }
        } else if marker == terminal {
          if !markers[marker] { invalid := true; }
        } else if marker == launcher {
          if !(phase == DaemonStart && markers[marker]) { invalid := true; }
        } else {
          invalid := true;
        }
      }
      var reconciled := false;
      if currentStarted && currentRetiring {
      } else if currentRetiring && !invalid {
        reconciled := true;
      } else if currentStarted && !invalid && Has(markers, terminal) {
        reconciled := true;
      } else if !currentStarted && !currentRetiring && !present {
        reconciled := true;
      }
      FlagsDescribeMarkers(markers, phase, attempt, listing, present, invalid);
      BranchesDecideClosable(markers, phase, attempt, invalid);
      if reconciled {
        ending := Some(if currentStarted || currentRetiring then ReconciledFailed else CleanFailed);
      } else {
        dir := Some(closing.(state := RecoveryPending));
      }
    }

    /** A well-formed STARTED command of the claim's owner. */
    method AdvancePhase(newPhase: Phase, newAttempt: string, listing: seq<Marker>, done: nat) returns (outcome: Outcome)
      requires dir.Some? && forall marker :: marker in listing <==> marker in dir.value.markers
      requires State().SameOwner() && PhaseToken(newPhase) && Hex32(newAttempt)
      modifies this
      ensures (State(), outcome) == Handle(old(State()), StartedLine(2, newPhase, newAttempt), done)
    {
      if started {
        if newAttempt == attempt { uncertain := true; return Exited(75); }
        var ok := RetireTerminalAttempt(listing, done);
        if !ok { uncertain := true; return Exited(75); }
      } else {
        var found := HasExecutionMarkers(listing);
        if found { uncertain := true; return Exited(75); }
      }
      dir := Some(dir.value.(phase := newPhase));
      dir := Some(dir.value.(attempt := newAttempt));
      dir := Some(dir.value.(state := MutationStarted));
      started, phase, attempt := true, newPhase, newAttempt;
      return Echoed;
    }

    /** One line of the command loop. */
    method HandleLine(line: Line, listing: seq<Marker>, done: nat) returns (outcome: Outcome)
      requires dir.Some? ==> forall marker :: marker in listing <==> marker in dir.value.markers
      modifies this
      ensures (State(), outcome) == Handle(old(State()), line, done)
    {
      if !(dir.Some? && dir.value.operation == operation && dir.value.identity == identity) {
        return Exited(75);
      }
      match line
      case HeartbeatLine(now) =>
        dir := Some(dir.value.(heartbeat := Some(now)));
        return Silent;
      case StartedLine(words, newPhase, newAttempt) =>
        if words != 2 || !PhaseToken(newPhase) || !Hex32(newAttempt) { return Exited(64); }
        outcome := AdvancePhase(newPhase, newAttempt, listing, done);
      case CommittedLine(words, linePhase, lineAttempt) =>
        if !(words == 2 && linePhase == phase && lineAttempt == attempt) { return Exited(75); }
        if !Has(dir.value.markers, Marker(Started, attempt)) { return Exited(75); }
        if Marker(Committed, attempt) in dir.value.markers { return Exited(75); }
        SetMarkers(dir.value.markers[Marker(Committed, attempt) := true]);
        return Echoed;
      case ExecutingLine(words, linePhase, lineAttempt) =>
        if !(words == 2 && linePhase == phase && lineAttempt == attempt) { return Exited(75); }
        if Marker(Started, attempt) in dir.value.markers { return Exited(75); }
        SetMarkers(dir.value.markers[Marker(Started, attempt) := true]);
        return Echoed;
      case ReleaseLine =>
        dir := None;
        released := true;
        return Released;
      case OtherLine =>
        return Echoed;
    }

    /** The exit trap. */
    method Cleanup(listing: seq<Marker>)
      requires dir.Some? ==> forall marker :: marker in listing <==> marker in dir.value.markers
      modifies this
      ensures State() == Cleaned(old(State()))
    {
      if !released && dir.Some? && dir.value.operation == operation && dir.value.identity == identity {
        if uncertain {
          dir := Some(dir.value.(state := RecoveryPending));
        } else if started {
          FinalizeInterruptedClaim(listing);
        } else {
          ending := Some(CleanFailed);
          dir := None;
        }
      }
    }
  }

  /** A marker the closing loop does not flag. */
  predicate Orderly(marker: Marker, markers: Markers, phase: Phase, attempt: string) {
    Has(markers, marker) &&
    (marker == Marker(Started, attempt) || marker == Marker(Retiring, attempt) || Beside(marker, phase, attempt))
  }

  /** What the closing loop computes, as a statement about the marker set. */
  lemma {:induction false} FlagsDescribeMarkers(
      markers: Markers, phase: Phase, attempt: string, listing: seq<Marker>, present: bool, invalid: bool)
    requires forall marker :: marker in listing <==> marker in markers
    requires present <==> |listing| > 0
    requires !invalid <==> forall j | 0 <= j < |listing| :: Orderly(listing[j], markers, phase, attempt)
    ensures present <==> markers != map[]
    ensures !invalid <==> forall marker | marker in markers :: Orderly(marker, markers, phase, attempt)
  {
    if present { assert listing[0] in markers; }
    if markers != map[] { var m :| m in markers; assert m in listing; }
    if invalid {
      var j :| 0 <= j < |listing| && !Orderly(listing[j], markers, phase, attempt);
      assert listing[j] in markers;
    } else {
      forall marker | marker in markers ensures Orderly(marker, markers, phase, attempt) {
        assert marker in listing;
      }
    }
  }

  /** The branches of finalisation decide closability as the set statement does. */
  lemma {:induction false} BranchesDecideClosable(markers: Markers, phase: Phase, attempt: string, invalid: bool)
    requires !invalid <==> forall marker | marker in markers :: Orderly(marker, markers, phase, attempt)
    ensures var s := Has(markers, Marker(Started, attempt));
      var r := Has(markers, Marker(Retiring, attempt));
      var t := Has(markers, Marker(TerminalKind(phase), attempt));
      && (Closable(markers, phase, attempt) <==>
          !(s && r) && ((r && !invalid) || (s && !invalid && t) || (!s && !r && markers == map[])))
      && (Closable(markers, phase, attempt) ==> (markers == map[] <==> !s && !r))
  {
    var s, r := Marker(Started, attempt), Marker(Retiring, attempt);
    if Closable(markers, phase, attempt) {
      assert markers == map[] || (r in markers && s !in markers) || (s in markers && r !in markers);
    }
  }

  // ------------------------------------------------------- runs of the owner

  /** What happens to an owner between READY and its exit: a command arrives, the
      executor drops a marker, a contender takes the claim away or returns it, or
      the Controller's channel ends. */
  datatype Event =
    | Command(line: Line, done: nat)
    | ChannelLost
    | ExecutorMarks(kind: MarkerKind)
    | TakenAway
    | ReturnedIntact

  /** Owner state plus the claim while it is out of its path. */
  datatype Tenure = Tenure(s: OwnerState, away: Option<Claim>, exited: bool)

  /** The executor marks only a claim that records a started mutation: it drops
      the started marker, or a result next to it while nothing is retiring. */
  predicate ExecutorMay(c: Claim, kind: MarkerKind) {
    c.state == MutationStarted && Marker(kind, c.attempt) !in c.markers &&
    (kind == Started ||
     ((kind == Succeeded || kind == Failed) &&
      Has(c.markers, Marker(Started, c.attempt)) && Marker(Retiring, c.attempt) !in c.markers))
  }

  /** The Controller sends EXECUTING and COMMITTED only after one of its own
      STARTED commands was echoed. */
  predicate Disciplined(s: OwnerState, event: Event) {
    event.Command? && (event.line.ExecutingLine? || event.line.CommittedLine?) ==> s.started
  }

  function Advance(t: Tenure, event: Event): Tenure {
    if t.exited then t else
    match event
    case Command(line, done) =>
      var (s, outcome) := Handle(t.s, line, done);
      if outcome.Exited? || outcome.Released? then t.(s := Cleaned(s), exited := true) else t.(s := s)
    case ChannelLost => t.(s := Cleaned(t.s), exited := true)
    case ExecutorMarks(kind) =>
      if t.s.dir.Some? && ExecutorMay(t.s.dir.value, kind) then
        t.(s := t.s.WithMarkers(t.s.dir.value.markers[Marker(kind, t.s.dir.value.attempt) := true]))
      else t
    case TakenAway =>
      if t.s.dir.Some? && t.away.None? then t.(s := t.s.(dir := None), away := t.s.dir) else t
    case ReturnedIntact =>
      if t.s.dir.None? && t.away.Some? then t.(s := t.s.(dir := t.away), away := None) else t
  }

  function Tenured(t: Tenure, events: seq<Event>): Tenure {
    if events == [] then t else Advance(Tenured(t, events[..|events| - 1]), events[|events| - 1])
  }

  predicate DisciplinedRun(t: Tenure, events: seq<Event>) {
    forall i :: 0 <= i < |events| ==> Disciplined(Tenured(t, events[..i]).s, events[i])
  }

  /** The claim, wherever it lies, records what the owner's variables say, and
      every marker in it belongs to the recorded attempt. */
  predicate Recorded(s: OwnerState, c: Claim) {
    && c.operation == s.operation && c.identity == s.identity
    && (forall marker :: marker in c.markers ==> c.markers[marker] && marker.attempt == c.attempt)
    && if s.started
       then c.state == MutationStarted && c.phase == s.phase && c.attempt == s.attempt
       else c.state == Live && c.markers == map[]
  }

  predicate InTenure(t: Tenure) {
    && !t.s.uncertain && !t.s.released
    && (t.s.dir.Some? ==> t.away.None? && Recorded(t.s, t.s.dir.value))
    && (t.away.Some? ==> Recorded(t.s, t.away.value))
  }

  /** An EXECUTING command that the owner would take for the phase and attempt its
      scan left in the script's variables, before any phase was started. */
  predicate MarksLive(s: OwnerState, event: Event) {
    && event.Command? && event.line.ExecutingLine? && event.line.words == 2
    && event.line.phase == s.phase && event.line.attempt == s.attempt && s.SameOwner() && !s.started
  }

  predicate Settled(t: Tenure) {
    t.exited || InTenure(t)
  }

  lemma {:induction false} CommandKeepsTenure(t: Tenure, line: Line, done: nat)
    requires InTenure(t) && !t.exited && !MarksLive(t.s, Command(line, done))
    ensures Settled(Advance(t, Command(line, done)))
  {
    var next := Advance(t, Command(line, done));
    if !next.exited && t.s.SameOwner() {
      var c, d := t.s.dir.value, next.s.dir.value;
      forall marker | marker in d.markers ensures d.markers[marker] && marker.attempt == d.attempt {
        if marker in c.markers { assert c.markers[marker]; }
      }
    }
  }

  /** The record is lost in one step exactly by such an early EXECUTING. */
  lemma {:induction false} RecordLostOnlyByEarlyExecuting(t: Tenure, event: Event)
    requires InTenure(t) && !t.exited
    ensures Settled(Advance(t, event)) <==> !MarksLive(t.s, event)
  {
    if MarksLive(t.s, event) {
      assert Marker(Started, t.s.attempt) in Advance(t, event).s.dir.value.markers;
    } else if event.Command? {
      CommandKeepsTenure(t, event.line, event.done);
    }
  }

  /** No event of the run comes as such an early EXECUTING. */
  predicate Unmarked(t: Tenure, events: seq<Event>) {
    forall i :: 0 <= i < |events| ==>
      Tenured(t, events[..i]).exited || !MarksLive(Tenured(t, events[..i]).s, events[i])
  }

  predicate SettledThroughout(t: Tenure, events: seq<Event>) {
    forall i :: 0 <= i <= |events| ==> Settled(Tenured(t, events[..i]))
  }

  lemma {:induction false} TenuredStep(t: Tenure, events: seq<Event>, i: nat)
    requires i < |events|
    ensures Tenured(t, events[..i + 1]) == Advance(Tenured(t, events[..i]), events[i])
  {
    assert events[..i + 1][..i] == events[..i];
  }

  lemma {:induction false} SettledUpTo(t: Tenure, events: seq<Event>, i: nat)
    requires InTenure(t) && !t.exited && Unmarked(t, events) && i <= |events|
    ensures Settled(Tenured(t, events[..i]))
  {
    if i > 0 {
      var now := Tenured(t, events[..i - 1]);
      SettledUpTo(t, events, i - 1);
      TenuredStep(t, events, i - 1);
      if !now.exited { RecordLostOnlyByEarlyExecuting(now, events[i - 1]); }
    }
  }

  /** Over every sequence of events: throughout the run a claim that is still
      `live` carries no marker and every marker belongs to the attempt the claim
      records, if and only if no EXECUTING comes early. */
  lemma {:induction false} EveryTenureIsRecorded(t: Tenure, events: seq<Event>)
    requires InTenure(t) && !t.exited
    ensures SettledThroughout(t, events) <==> Unmarked(t, events)
  {
    if Unmarked(t, events) {
      forall i | 0 <= i <= |events| ensures Settled(Tenured(t, events[..i])) { SettledUpTo(t, events, i); }
    }
    if SettledThroughout(t, events) {
      forall i | 0 <= i < |events|
        ensures Tenured(t, events[..i]).exited || !MarksLive(Tenured(t, events[..i]).s, events[i])
      {
        assert Settled(Tenured(t, events[..i])) && Settled(Tenured(t, events[..i + 1]));
        TenuredStep(t, events, i);
        if !Tenured(t, events[..i]).exited { RecordLostOnlyByEarlyExecuting(Tenured(t, events[..i]), events[i]); }
      }
    }
  }

  /** The Controller's order of commands is enough. */
  lemma {:induction false} DisciplineIsEnough(t: Tenure, events: seq<Event>)
    requires InTenure(t) && !t.exited && DisciplinedRun(t, events)
    ensures Unmarked(t, events) && Settled(Tenured(t, events))
  {
    forall i | 0 <= i < |events|
      ensures Tenured(t, events[..i]).exited || !MarksLive(Tenured(t, events[..i]).s, events[i])
    {
      assert Disciplined(Tenured(t, events[..i]).s, events[i]);
    }
    SettledUpTo(t, events, |events|);
    assert events[..|events|] == events;
  }

  /** A new phase is recorded only when the directory then holds no marker of any
      attempt, and the markers it held before were a complete finished attempt. */
  lemma {:induction false} AcceptedAdvanceRetiresEverything(s: OwnerState, line: Line, done: nat)
    requires line.StartedLine? && Handle(s, line, done).1 == Echoed
    ensures var t := Handle(s, line, done).0;
      && t.dir.Some? && t.dir.value.markers == map[]
      && t.dir.value.phase == t.phase == line.phase && t.dir.value.attempt == t.attempt == line.attempt
      && t.dir.value.state == MutationStarted && t.started
    ensures s.dir.Some? && s.SameOwner()
    ensures if s.started
      then line.attempt != s.attempt && Retirable(s.dir.value.markers, s.phase, s.attempt) &&
           RetiredTo(s.dir.value.markers, s.phase, s.attempt, done) == map[]
      else s.dir.value.markers == map[]
  {
    if s.started {
      RetirementTrail(s.dir.value.markers, s.phase, s.attempt, done);
    }
  }

  /** At any point of a run that kept its record, a refused advance exits 75,
      keeps the recorded phase and attempt, and leaves the claim recovery pending
      with its evidence: untouched when the check refused it, or at one of the
      retirement's crash points when a file operation failed. */
  lemma {:induction false} RefusedAdvanceStaysRecorded(t: Tenure, events: seq<Event>, line: Line, done: nat)
    requires InTenure(t) && !t.exited && Unmarked(t, events) && !Tenured(t, events).exited
    requires Tenured(t, events).s.dir.Some? && line.StartedLine? && WellFormedStart(line)
    requires Handle(Tenured(t, events).s, line, done).1 != Echoed
    ensures var s := Tenured(t, events).s; var c := s.dir.value; var next := Advance(Tenured(t, events), Command(line, done));
      && Handle(s, line, done).1 == Exited(75) && next.exited
      && next.s.phase == s.phase && next.s.attempt == s.attempt
      && (s.started ==> c.phase == s.phase && c.attempt == s.attempt)
      && next.s.dir == Some(c.(state := RecoveryPending,
           markers := if s.started && line.attempt != s.attempt && Retirable(c.markers, s.phase, s.attempt)
                      then RetiredTo(c.markers, s.phase, s.attempt, done) else c.markers))
  {
    SettledUpTo(t, events, |events|);
    assert events[..|events|] == events;
  }

  /** Losing the channel at any point of such a run, once a mutation started,
      removes the claim exactly for the three closable marker sets; otherwise it
      stays, with every marker, recovery pending. */
  lemma {:induction false} ChannelLossKeepsOpenEvidence(t: Tenure, events: seq<Event>)
    requires InTenure(t) && !t.exited && Unmarked(t, events) && !Tenured(t, events).exited
    requires Tenured(t, events).s.started && Tenured(t, events).s.dir.Some?
    ensures var c := Tenured(t, events).s.dir.value; var next := Advance(Tenured(t, events), ChannelLost);
      && (next.s.dir == None <==> Closable(c.markers, c.phase, c.attempt))
      && (next.s.dir.Some? ==> next.s.dir == Some(c.(state := RecoveryPending)))
      && (Unresolved(c) ==> next.s.dir.Some?)
  {
    SettledUpTo(t, events, |events|);
    assert events[..|events|] == events;
  }

  /** How a tenure may end for its claim `c`, recorded with the owner's phase and
      attempt: released, removed with nothing open, or recovery pending with every
      marker or at a crash point of a retirement. */
  predicate ClaimSettled(s: OwnerState, c: Claim, ended: OwnerState, done: nat) {
    || (ended.released && ended.dir.None?)
    || (ended.dir.None? && (if s.started then Closable(c.markers, c.phase, c.attempt) && !Unresolved(c) else c.markers == map[]))
    || ended.dir == Some(c.(state := RecoveryPending))
    || (Retirable(c.markers, c.phase, c.attempt)
        && ended.dir == Some(c.(state := RecoveryPending, markers := RetiredTo(c.markers, c.phase, c.attempt, done))))
  }

  /** One event that ends a recorded tenure settles its claim; a claim a contender
      holds at that moment is not touched. */
  predicate Ends(now: Tenure, event: Event, ended: Tenure) {
    && ended.exited && ended.away == now.away
    && (now.s.dir.None? ==> ended.s.dir.None?)
    && (now.s.dir.Some? ==> ClaimSettled(now.s, now.s.dir.value, ended.s, if event.Command? then event.done else 0))
    && (ended.s.released ==> event.Command? && event.line.ReleaseLine?)
  }

  lemma {:induction false} ExitSettlesClaim(now: Tenure, event: Event)
    requires InTenure(now) && !now.exited && Advance(now, event).exited
    ensures Ends(now, event, Advance(now, event))
  {
    if now.s.dir.Some? {
      assert now.s.SameOwner();
      if event.Command? && event.line.StartedLine? && WellFormedStart(event.line) {
        assert !Admits(now.s, event.line, event.done);
      }
    }
  }

  lemma {:induction false} ExitedStays(t: Tenure, events: seq<Event>, i: nat)
    requires i <= |events| && Tenured(t, events[..i]).exited
    ensures Tenured(t, events) == Tenured(t, events[..i])
    decreases |events| - i
  {
    if i == |events| {
      assert events[..i] == events;
    } else {
      TenuredStep(t, events, i);
      ExitedStays(t, events, i + 1);
    }
  }

  /** Every run that kept its record and has ended, ended by one event that found
      the claim recorded and settled it. */
  lemma {:induction false} EveryExitSettlesTheClaim(t: Tenure, events: seq<Event>) returns (k: nat)
    requires InTenure(t) && !t.exited && Unmarked(t, events) && Tenured(t, events).exited
    ensures k < |events| && InTenure(Tenured(t, events[..k])) && !Tenured(t, events[..k]).exited
    ensures Ends(Tenured(t, events[..k]), events[k], Tenured(t, events))
  {
    assert events[..|events|] == events;
    k := FirstExit(t, events, |events|);
    SettledUpTo(t, events, k);
    TenuredStep(t, events, k);
    ExitSettlesClaim(Tenured(t, events[..k]), events[k]);
    ExitedStays(t, events, k + 1);
  }

  lemma {:induction false} FirstExit(t: Tenure, events: seq<Event>, n: nat) returns (k: nat)
    requires n <= |events| && !t.exited && Tenured(t, events[..n]).exited
    ensures k < n && !Tenured(t, events[..k]).exited && Tenured(t, events[..k + 1]).exited
  {
    if n == 0 {
      assert false;
    } else if Tenured(t, events[..n - 1]).exited {
      k := FirstExit(t, events, n - 1);
    } else {
      k := n - 1;
    }
  }

  /** The leftover variables of the scan do let an early EXECUTING put a started
      marker into a claim that still reads `live`. */
  lemma {:induction false} LeftoverAttemptMarksALiveClaim(claim: Claim, phase: Phase, attempt: string)
    requires claim.state == Live && claim.markers == map[]
    ensures var s := OwnerState(claim.operation, claim.identity, Some(claim), false, phase, attempt, false, false, None);
      var event := Command(ExecutingLine(2, phase, attempt), 0); var t := Advance(Tenure(s, None, false), event).s;
      InTenure(Tenure(s, None, false)) && MarksLive(s, event) &&
      t.dir.value.state == Live && Marker(Started, attempt) in t.dir.value.markers
  {
  }
}
