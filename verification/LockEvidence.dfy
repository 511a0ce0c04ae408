/**
The Bootstrap Lock's claim directory and the rule by which a contender decides
that a stale competitor's claim may be taken out of the lock root.

A claim is a directory of small files (operation, identity, heartbeat, state,
phase, attempt) plus execution markers `execution_<kind>.<attempt>`.  A file
that cannot be read is the empty string here: every such read ends in `busy`,
exactly as an empty value does.
*/
module LockEvidence {
  import opened Options

  datatype Phase =
    // phases whose terminal marker is execution_committed
    | DaemonStart
    | DurableTokenVerification
    | CachePromotion
    | IdentityArtifactUpload
    | IdentityOperationArtifactCleanup
    | MaintenanceHandoffBegin
    | MaintenanceHandoffComplete
    | PersistentPathDirectories
    | PersistentServiceDefinition
    | PersistentServiceRegister
    | PersistentServiceStart
    | PersistentServiceRestart
    | PersistentServiceStop
    | ServiceLifecycleMaintenanceBegin
    | SetupMaintenanceBegin
    | SetupActionStart
    | SetupActionComplete
    | SetupActionSkip
    | SetupActionFail
    | ManagedSetup
    | SetupMaintenanceFinish
    // phases whose terminal marker is execution_succeeded
    | CacheDirectoryCreation
    | CacheUpload
    | CacheStagingPermissions
    | StateOwnerRelease
    | OfflineStorageMaintenance
    // any other token, or an unreadable mutation_phase file
    | OtherPhase(token: string)

  datatype OperationKind =
    | InitialSetup
    | MissingDaemonRepair
    | HostBinaryReplacement
    | ServiceStop
    | ServiceRestart
    | StorageMaintenance
    | OtherKind(name: string)

  datatype ClaimState = Live | MutationStarted | RecoveryPending | OtherState

  datatype MarkerKind = Started | Retiring | Succeeded | Failed | Committed

  datatype Marker = Marker(kind: MarkerKind, attempt: string)

  /** Markers present in a claim; the value is true for a real directory and
      false for a file or a symbolic link at that name. */
  type Markers = map<Marker, bool>

  datatype Claim = Claim(
    operation: string,
    identity: string,
    kind: OperationKind,
    heartbeat: Option<int>,
    state: ClaimState,
    phase: Phase,
    attempt: string,
    markers: Markers)

  const STALE_AFTER_SECONDS := 30

  predicate Recoverable(phase: Phase) {
    !phase.OtherPhase?
  }

  predicate SuccessPhase(phase: Phase) {
    phase.CacheDirectoryCreation? || phase.CacheUpload? || phase.CacheStagingPermissions? ||
    phase.StateOwnerRelease? || phase.OfflineStorageMaintenance?
  }

  predicate RequiresCommit(phase: Phase) {
    Recoverable(phase) && !SuccessPhase(phase)
  }

  function TerminalKind(phase: Phase): MarkerKind {
    if RequiresCommit(phase) then Committed else Succeeded
  }

  predicate LowerHex(c: char) {
    '0' <= c <= '9' || 'a' <= c <= 'f'
  }

  predicate Hex32(s: string) {
    |s| == 32 && forall i :: 0 <= i < |s| ==> LowerHex(s[i])
  }

  predicate TokenChar(c: char) {
    'A' <= c <= 'Z' || 'a' <= c <= 'z' || '0' <= c <= '9' || c == '_' || c == '.' || c == '@' || c == '-'
  }

  predicate OperationToken(s: string) {
    s != "" && forall i :: 0 <= i < |s| ==> TokenChar(s[i])
  }

  // ---------------------------------------------------------------- evidence

  /** The five marker booleans and the unexpected-evidence flag of one read. */
  datatype Evidence = Evidence(
    started: bool, retiring: bool, succeeded: bool, failed: bool, committed: bool,
    unexpected: bool)

  const NO_EVIDENCE := Evidence(false, false, false, false, false, false)

  predicate Has(markers: Markers, marker: Marker) {
    marker in markers && markers[marker]
  }

  /** A marker the contender's case table names for this phase and attempt. */
  predicate Named(phase: Phase, attempt: string, marker: Marker) {
    marker.attempt == attempt &&
    match marker.kind
    case Started => true
    case Retiring => true
    case Failed => true
    case Committed => RequiresCommit(phase)
    case Succeeded => !RequiresCommit(phase) || phase == DaemonStart
  }

  predicate Proper(phase: Phase, attempt: string, markers: Markers, marker: Marker) {
    Named(phase, attempt, marker) && Has(markers, marker)
  }

  predicate OnlyNamedDirectories(phase: Phase, attempt: string, markers: Markers) {
    forall marker :: marker in markers ==> Proper(phase, attempt, markers, marker)
  }

  /** The shape tables of the daemon-start phase and of every other phase. */
  predicate ValidShape(phase: Phase, e: Evidence) {
    if phase == DaemonStart then
      (!e.started && !e.succeeded && !e.retiring && !e.failed && !e.committed) ||
      (e.started && !e.retiring && !e.committed && !(e.succeeded && e.failed)) ||
      (e.started && !e.retiring && e.committed && !e.failed) ||
      (!e.started && e.retiring && !e.failed)
    else
      (!e.started && !e.retiring && !e.succeeded && !e.failed && !e.committed) ||
      (((e.started && !e.retiring) || (!e.started && e.retiring)) &&
       !(e.failed && (e.succeeded || e.committed)))
  }

  /** What the scan reads from a claim; a live claim's markers are not examined. */
  function ReadEvidence(c: Claim): Evidence {
    if c.state == Live then NO_EVIDENCE else
    var e := Evidence(
      Has(c.markers, Marker(Started, c.attempt)),
      Has(c.markers, Marker(Retiring, c.attempt)),
      Has(c.markers, Marker(Succeeded, c.attempt)),
      Has(c.markers, Marker(Failed, c.attempt)),
      Has(c.markers, Marker(Committed, c.attempt)),
      false);
    e.(unexpected := !OnlyNamedDirectories(c.phase, c.attempt, c.markers) || !ValidShape(c.phase, e))
  }

  /** The marker loop of the scan, over the directory listing. */
  method ScanMarkers(phase: Phase, attempt: string, markers: Markers, listing: seq<Marker>)
    returns (unexpected: bool)
    requires forall marker :: marker in listing <==> marker in markers
    ensures unexpected <==> !OnlyNamedDirectories(phase, attempt, markers)
  {
    unexpected := false;
    var terminal := Marker(TerminalKind(phase), attempt);
    for i := 0 to |listing|
      invariant !unexpected <==> forall j | 0 <= j < i :: Proper(phase, attempt, markers, listing[j])
    {
      var marker := listing[i];
      if marker == Marker(Started, attempt) || marker == Marker(Retiring, attempt) || marker == terminal {
        if !markers[marker] { unexpected := true; }
      } else if marker == Marker(Succeeded, attempt) {
        if !(phase == DaemonStart && markers[marker]) { unexpected := true; }
      } else if marker == Marker(Failed, attempt) {
        if !markers[marker] { unexpected := true; }
      } else {
        unexpected := true;
      }
    }
  }

  // ------------------------------------------------------------------ probes

  /** A probe's answer: definitely yes, definitely no, or not known. */
  datatype Probe = Unknown | No | Yes

  datatype Probes = Probes(process: Probe, launcher: Probe, service: Probe, daemon: Probe)

  /** The launcher probe is taken only for a restart whose process listing was read. */
  function LauncherAnswer(phase: Phase, p: Probes): Probe {
    if phase == PersistentServiceRestart && p.process != Unknown then p.launcher else Unknown
  }

  predicate HostQuiet(p: Probes) {
    p.process == No && p.service == No && p.daemon == No
  }

  // ---------------------------------------------------------- classification

  predicate TerminalEvidence(phase: Phase, e: Evidence) {
    if RequiresCommit(phase) then e.committed else e.succeeded
  }

  predicate InMutation(state: ClaimState) {
    state == MutationStarted || state == RecoveryPending
  }

  predicate FailedDaemonStart(c: Claim, e: Evidence, p: Probes) {
    InMutation(c.state) &&
    (c.kind == InitialSetup || c.kind == MissingDaemonRepair) && c.phase == DaemonStart &&
    e.started && e.succeeded != e.failed && !e.committed && !e.unexpected && HostQuiet(p)
  }

  predicate StartedAlone(e: Evidence) {
    e.started && !e.retiring && !e.succeeded && !e.failed && !e.committed && !e.unexpected
  }

  predicate ReleasedStateOwner(c: Claim, e: Evidence, p: Probes) {
    InMutation(c.state) && c.phase == StateOwnerRelease && StartedAlone(e) && HostQuiet(p)
  }

  predicate InterruptedServiceRestart(c: Claim, e: Evidence, p: Probes) {
    InMutation(c.state) && c.phase == PersistentServiceRestart && StartedAlone(e) &&
    LauncherAnswer(c.phase, p) == No && HostQuiet(p)
  }

  predicate ProbeProved(c: Claim, e: Evidence, p: Probes) {
    FailedDaemonStart(c, e, p) || ReleasedStateOwner(c, e, p) || InterruptedServiceRestart(c, e, p)
  }

  predicate Resolved(c: Claim, e: Evidence, p: Probes) {
    e.retiring || TerminalEvidence(c.phase, e) || ProbeProved(c, e, p)
  }

  predicate Reconciled(c: Claim, e: Evidence, p: Probes) {
    !e.unexpected && (c.state == Live || !e.started || Resolved(c, e, p))
  }

  predicate Stale(c: Claim, now: int) {
    c.heartbeat.Some? && now - c.heartbeat.value > STALE_AFTER_SECONDS
  }

  /** Every file the scan reads has an acceptable value. */
  predicate Readable(c: Claim) {
    && OperationToken(c.operation)
    && Hex32(c.identity)
    && c.heartbeat.Some?
    && c.state != OtherState
    && (c.state != Live ==> !c.kind.OtherKind? && Recoverable(c.phase) && Hex32(c.attempt))
  }

  /** The host is active although the attempt started and nothing resolves it. */
  predicate ActiveUnresolved(c: Claim, e: Evidence, p: Probes) {
    (p.process == Yes || p.service == Yes || p.daemon == Yes) && e.started && !Resolved(c, e, p)
  }

  /** The scan goes on to quarantine this claim instead of reporting busy. */
  predicate Accepts(c: Claim, now: int, p: Probes) {
    var e := ReadEvidence(c);
    Readable(c) && Stale(c, now) && Reconciled(c, e, p) && !ActiveUnresolved(c, e, p)
  }

  /** Comparison of the first read with the read after quarantine. */
  predicate SameObservation(seen: Claim, moved: Claim) {
    && moved.operation == seen.operation
    && moved.identity == seen.identity
    && moved.heartbeat == seen.heartbeat
    && moved.state == seen.state
    && (seen.state != Live ==>
          moved.kind == seen.kind && moved.phase == seen.phase && moved.attempt == seen.attempt)
    && ReadEvidence(moved) == ReadEvidence(seen)
  }

  /** The probes repeated after quarantine, taken only in the probe-proved cases. */
  predicate StillQuiet(c: Claim, before: Probes, after: Probes) {
    var e := ReadEvidence(c);
    ProbeProved(c, e, before) ==>
      HostQuiet(after) &&
      (InterruptedServiceRestart(c, e, before) ==> LauncherAnswer(c.phase, after) == No)
  }

  /** The archived case; every other accepted claim is deleted. */
  predicate Archived(c: Claim, p: Probes) {
    InterruptedServiceRestart(c, ReadEvidence(c), p)
  }

  // ------------------------------------------------------------- properties

  /** The attempt started, and neither the phase's terminal marker nor the
      retiring sentinel says how it ended. */
  predicate Unresolved(c: Claim) {
    var here := (kind: MarkerKind) => Marker(kind, c.attempt) in c.markers;
    c.state != Live && here(Started) && !here(TerminalKind(c.phase)) && !here(Retiring)
  }

  /** The markers of an accepted claim are exactly the five booleans read from it:
      nothing else is in the directory and every one is a real directory. */
  lemma {:induction false} AcceptedMarkersAreTheBooleans(c: Claim)
    requires c.state != Live && !ReadEvidence(c).unexpected
    ensures forall marker ::
      marker in c.markers <==>
        marker.attempt == c.attempt &&
        match marker.kind
        case Started => ReadEvidence(c).started
        case Retiring => ReadEvidence(c).retiring
        case Succeeded => ReadEvidence(c).succeeded
        case Failed => ReadEvidence(c).failed
        case Committed => ReadEvidence(c).committed
    ensures forall marker :: marker in c.markers ==> c.markers[marker]
  {
    var e := ReadEvidence(c);
    forall marker
      ensures marker in c.markers <==>
        marker.attempt == c.attempt &&
        match marker.kind
        case Started => e.started
        case Retiring => e.retiring
        case Succeeded => e.succeeded
        case Failed => e.failed
        case Committed => e.committed
    {
      if marker in c.markers {
        assert Proper(c.phase, c.attempt, c.markers, marker);
        assert marker == Marker(marker.kind, c.attempt);
      } else if marker.attempt == c.attempt {
        assert marker == Marker(marker.kind, c.attempt);
      }
    }
  }

  /** Two reads that agree on the compared values saw the same marker set. */
  lemma {:induction false} SameObservationSameMarkers(seen: Claim, moved: Claim)
    requires seen.state != Live && !ReadEvidence(seen).unexpected && SameObservation(seen, moved)
    ensures moved.markers == seen.markers && moved == seen
  {
    AcceptedMarkersAreTheBooleans(seen);
    AcceptedMarkersAreTheBooleans(moved);
    forall marker ensures marker in seen.markers <==> marker in moved.markers {
    }
    assert seen.markers.Keys == moved.markers.Keys;
  }

  // -------------------------------------------------- acceptance by the fields

  /** Thirty-two lower-case hexadecimal digits. */
  predicate IdentityText(s: string) {
    |s| == 32 && forall c :: c in s ==> c in "0123456789abcdef"
  }

  predicate OperationText(s: string) {
    s != "" && forall c :: c in s ==> 'A' <= c <= 'Z' || 'a' <= c <= 'z' || '0' <= c <= '9' || c in "_.@-"
  }

  /** A claim that says whose it is and whose last heartbeat is more than thirty seconds old. */
  predicate Abandoned(c: Claim, now: int) {
    OperationText(c.operation) && IdentityText(c.identity) && c.heartbeat.Some? && now > c.heartbeat.value + 30
  }

  /** A claim whose mutation a contender can judge: a known operation, a phase it can recover, an attempt. */
  predicate Attributed(c: Claim) {
    && (c.state == MutationStarted || c.state == RecoveryPending)
    && !c.kind.OtherKind? && !c.phase.OtherPhase? && IdentityText(c.attempt)
  }

  /** Every marker is a real directory of the claim's attempt. */
  predicate OwnMarkers(c: Claim) {
    forall marker :: marker in c.markers ==> c.markers[marker] && marker.attempt == c.attempt
  }

  function KindsOf(markers: Markers): set<MarkerKind> {
    set marker | marker in markers :: marker.kind
  }

  predicate AllQuiet(p: Probes) {
    p.process == No && p.service == No && p.daemon == No
  }

  /** The kinds of markers with which a mutation may be taken away: none, an attempt
      being retired, one that ended, or one that the probes prove to have stopped. */
  predicate MayBeTaken(phase: Phase, kind: OperationKind, found: set<MarkerKind>, p: Probes) {
    found == {} ||
    if phase == DaemonStart then StartMayBeTaken(kind, found, p) else OtherMayBeTaken(phase, found, p)
  }

  predicate StartMayBeTaken(kind: OperationKind, found: set<MarkerKind>, p: Probes) {
    || found == {Started, Committed} || found == {Started, Succeeded, Committed}
    || (Retiring in found && found <= {Retiring, Succeeded, Committed})
    || ((found == {Started, Succeeded} || found == {Started, Failed})
        && (kind == InitialSetup || kind == MissingDaemonRepair) && AllQuiet(p))
  }

  /** The marker that ends an attempt of a phase other than the daemon's start. */
  function EndingOf(phase: Phase): MarkerKind {
    if phase in {CacheDirectoryCreation, CacheUpload, CacheStagingPermissions, StateOwnerRelease, OfflineStorageMaintenance}
    then Succeeded else Committed
  }

  predicate OtherMayBeTaken(phase: Phase, found: set<MarkerKind>, p: Probes) {
    || found == {Started, EndingOf(phase)}
    || found == {Retiring} || found == {Retiring, EndingOf(phase)} || found == {Retiring, Failed}
    || (found == {Started} && AllQuiet(p) &&
        (phase == StateOwnerRelease || (phase == PersistentServiceRestart && p.launcher == No)))
  }

  /** The kinds that five booleans name. */
  function NamedKinds(e: Evidence): set<MarkerKind> {
    (if e.started then {Started} else {}) + (if e.retiring then {Retiring} else {}) +
    (if e.succeeded then {Succeeded} else {}) + (if e.failed then {Failed} else {}) +
    (if e.committed then {Committed} else {})
  }

  lemma {:induction false} KindsAreTheBooleans(c: Claim)
    requires c.state != Live && OwnMarkers(c)
    ensures KindsOf(c.markers) == NamedKinds(ReadEvidence(c))
    ensures forall kind :: Has(c.markers, Marker(kind, c.attempt)) <==> kind in KindsOf(c.markers)
  {
    forall kind ensures kind in KindsOf(c.markers) <==> Has(c.markers, Marker(kind, c.attempt)) {
      if kind in KindsOf(c.markers) {
        var marker :| marker in c.markers && marker.kind == kind;
        assert marker == Marker(kind, c.attempt);
      }
      assert Marker(kind, c.attempt) in c.markers ==> Marker(kind, c.attempt).kind in KindsOf(c.markers);
    }
    NamedKindsSay(ReadEvidence(c), KindsOf(c.markers));
  }

  lemma {:induction false} NamedByKind(c: Claim)
    requires c.state != Live && OwnMarkers(c)
    ensures OnlyNamedDirectories(c.phase, c.attempt, c.markers) <==>
      forall kind :: kind in KindsOf(c.markers) ==> Named(c.phase, c.attempt, Marker(kind, c.attempt))
  {
    KindsAreTheBooleans(c);
    if OnlyNamedDirectories(c.phase, c.attempt, c.markers) {
      forall kind | kind in KindsOf(c.markers) ensures Named(c.phase, c.attempt, Marker(kind, c.attempt)) {
        assert Proper(c.phase, c.attempt, c.markers, Marker(kind, c.attempt));
      }
    } else {
      var marker :| marker in c.markers && !Proper(c.phase, c.attempt, c.markers, marker);
      assert marker == Marker(marker.kind, c.attempt) && marker.kind in KindsOf(c.markers);
    }
  }

  /** The booleans with which an attempt may be taken away, given its ending marker
      and whether the probes prove that it stopped. */
  predicate SettlesWith(ending: MarkerKind, stopped: bool, e: Evidence) {
    && (e.committed ==> ending == Committed) && (e.succeeded ==> ending == Succeeded)
    && (|| (!e.started && !e.retiring && !e.succeeded && !e.failed && !e.committed)
        || (e.started != e.retiring && !(e.failed && (e.succeeded || e.committed))))
    && (!e.started || e.committed || e.succeeded || (stopped && !e.failed))
  }

  predicate StartSettles(kind: OperationKind, e: Evidence, p: Probes) {
    && ValidShape(DaemonStart, e)
    && (!e.started || e.committed
        || (AllQuiet(p) && (kind == InitialSetup || kind == MissingDaemonRepair) && e.succeeded != e.failed))
  }

  predicate ProbesStop(phase: Phase, p: Probes) {
    AllQuiet(p) && (phase == StateOwnerRelease || (phase == PersistentServiceRestart && p.launcher == No))
  }

  /** Two sets of kinds are equal exactly when they agree on all five. */
  lemma {:induction false} SameKinds(a: set<MarkerKind>, b: set<MarkerKind>)
    ensures a == b <==>
      && (Started in a <==> Started in b) && (Retiring in a <==> Retiring in b) && (Succeeded in a <==> Succeeded in b)
      && (Failed in a <==> Failed in b) && (Committed in a <==> Committed in b)
  {
    if a != b {
      var kind :| kind in a <==> kind !in b;
      match kind
      case Started =>
      case Retiring =>
      case Succeeded =>
      case Failed =>
      case Committed =>
    }
  }

  lemma {:induction false} NamedKindsSay(e: Evidence, found: set<MarkerKind>)
    ensures NamedKinds(e) == found <==>
      && (e.started <==> Started in found) && (e.retiring <==> Retiring in found) && (e.succeeded <==> Succeeded in found)
      && (e.failed <==> Failed in found) && (e.committed <==> Committed in found)
  {
    SameKinds(NamedKinds(e), found);
  }

  lemma {:induction false} StartSettlesByKind(kind: OperationKind, e: Evidence, p: Probes)
    ensures StartSettles(kind, e, p) <==> NamedKinds(e) == {} || StartMayBeTaken(kind, NamedKinds(e), p)
  {
    NamedKindsSay(e, {});
    NamedKindsSay(e, {Started, Committed});
    NamedKindsSay(e, {Started, Succeeded, Committed});
    NamedKindsSay(e, {Started, Succeeded});
    NamedKindsSay(e, {Started, Failed});
    assert Retiring in NamedKinds(e) && NamedKinds(e) <= {Retiring, Succeeded, Committed} <==> e.retiring && !e.started && !e.failed by {
      assert Started in NamedKinds(e) <==> e.started;
      assert Failed in NamedKinds(e) <==> e.failed;
    }
  }

  lemma {:induction false} EndingIsTerminal(phase: Phase)
    requires Recoverable(phase)
    ensures EndingOf(phase) == TerminalKind(phase) && (RequiresCommit(phase) <==> EndingOf(phase) == Committed)
  {
  }

  lemma {:induction false} EndingsByKind(ending: MarkerKind, stopped: bool, e: Evidence)
    requires ending == Committed || ending == Succeeded
    ensures var found := NamedKinds(e);
      SettlesWith(ending, stopped, e) <==>
        found == {} || found == {Started, ending} || found == {Retiring} || found == {Retiring, ending} ||
        found == {Retiring, Failed} || (found == {Started} && stopped)
  {
    NamedKindsSay(e, {});
    NamedKindsSay(e, {Started, ending});
    NamedKindsSay(e, {Retiring});
    NamedKindsSay(e, {Retiring, ending});
    NamedKindsSay(e, {Retiring, Failed});
    NamedKindsSay(e, {Started});
  }

  lemma {:induction false} StartReconciled(c: Claim, p: Probes)
    requires Attributed(c) && OwnMarkers(c) && c.phase == DaemonStart
    ensures Reconciled(c, ReadEvidence(c), p) <==> StartSettles(c.kind, ReadEvidence(c), p)
  {
    KindsAreTheBooleans(c);
    NamedByKind(c);
  }

  lemma {:induction false} OtherNamed(c: Claim)
    requires Attributed(c) && OwnMarkers(c) && c.phase != DaemonStart
    ensures var e := ReadEvidence(c);
      OnlyNamedDirectories(c.phase, c.attempt, c.markers) <==>
        (e.committed ==> TerminalKind(c.phase) == Committed) && (e.succeeded ==> TerminalKind(c.phase) == Succeeded)
  {
    KindsAreTheBooleans(c);
    NamedByKind(c);
  }

  lemma {:induction false} OtherReconciled(c: Claim, p: Probes)
    requires Attributed(c) && OwnMarkers(c) && c.phase != DaemonStart
    ensures Reconciled(c, ReadEvidence(c), p) <==>
      SettlesWith(TerminalKind(c.phase), ProbesStop(c.phase, p), ReadEvidence(c))
  {
    var e := ReadEvidence(c);
    OtherNamed(c);
    assert TerminalEvidence(c.phase, e) <==> if TerminalKind(c.phase) == Committed then e.committed else e.succeeded;
    assert ProbeProved(c, e, p) <==> StartedAlone(e) && ProbesStop(c.phase, p);
  }

  /** Acceptance, said of the claim's files and directories alone. */
  lemma {:induction false} AcceptedExactly(c: Claim, now: int, p: Probes)
    ensures Accepts(c, now, p) <==>
      && Abandoned(c, now)
      && (c.state == Live ||
          (Attributed(c) && OwnMarkers(c) && MayBeTaken(c.phase, c.kind, KindsOf(c.markers), p)))
  {
    TextsAgree(c);
    if c.state != Live && Attributed(c) {
      if OwnMarkers(c) {
        KindsAreTheBooleans(c);
        if c.phase == DaemonStart {
          StartReconciled(c, p);
          StartSettlesByKind(c.kind, ReadEvidence(c), p);
        } else {
          OtherReconciled(c, p);
          EndingIsTerminal(c.phase);
          EndingsByKind(TerminalKind(c.phase), ProbesStop(c.phase, p), ReadEvidence(c));
        }
        if Reconciled(c, ReadEvidence(c), p) { ActivityGuardIsRedundant(c, p); }
      } else if !ReadEvidence(c).unexpected {
        AcceptedMarkersAreTheBooleans(c);
      }
    }
  }

  lemma {:induction false} HexAgrees(s: string)
    ensures Hex32(s) <==> IdentityText(s)
  {
    if |s| == 32 && !Hex32(s) {
      var i :| 0 <= i < |s| && !LowerHex(s[i]);
      assert s[i] in s;
    }
  }

  lemma {:induction false} TokenAgrees(s: string)
    ensures OperationToken(s) <==> OperationText(s)
  {
    if s != "" && !OperationToken(s) {
      var i :| 0 <= i < |s| && !TokenChar(s[i]);
      assert s[i] in s;
    }
  }

  lemma {:induction false} TextsAgree(c: Claim)
    ensures Readable(c) && c.state == Live <==> OperationText(c.operation) && IdentityText(c.identity) && c.heartbeat.Some? && c.state == Live
    ensures Readable(c) && c.state != Live <==>
      OperationText(c.operation) && IdentityText(c.identity) && c.heartbeat.Some? && Attributed(c)
  {
    HexAgrees(c.identity);
    HexAgrees(c.attempt);
    TokenAgrees(c.operation);
  }

  /** The exact condition under which unresolved evidence is accepted: one of three
      cases in which every probe answered a definite no. */
  lemma {:induction false} UnresolvedAcceptedOnlyProbeProved(c: Claim, now: int, p: Probes)
    requires Unresolved(c)
    ensures Accepts(c, now, p) <==>
      && Abandoned(c, now) && Attributed(c) && OwnMarkers(c)
      && p.process == No && p.service == No && p.daemon == No
      && (|| (&& c.phase == DaemonStart && (c.kind == InitialSetup || c.kind == MissingDaemonRepair)
              && (KindsOf(c.markers) == {Started, Succeeded} || KindsOf(c.markers) == {Started, Failed}))
          || (c.phase == StateOwnerRelease && KindsOf(c.markers) == {Started})
          || (c.phase == PersistentServiceRestart && KindsOf(c.markers) == {Started} && p.launcher == No))
  {
    AcceptedExactly(c, now, p);
    if Attributed(c) && OwnMarkers(c) {
      KindsAreTheBooleans(c);
      var found := KindsOf(c.markers);
      assert forall kind :: Marker(kind, c.attempt) in c.markers ==> c.markers[Marker(kind, c.attempt)];
      assert Started in found && Retiring !in found && TerminalKind(c.phase) !in found;
    }
  }

  /** The host-activity guard after the classification can never fire. */
  lemma ActivityGuardIsRedundant(c: Claim, p: Probes)
    requires Reconciled(c, ReadEvidence(c), p)
    ensures !ActiveUnresolved(c, ReadEvidence(c), p)
  {
  }
}
