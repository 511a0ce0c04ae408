/**
The Bootstrap Lock as a transition system: any number of processes publish
claims into one lock root, scan for competitors, quarantine stale ones by
rename, re-read them, delete, archive or restore them, scan once more and
become owners.  Any process may crash at any step; the clock, the probes and
what owners and executors write into their claims are inputs.
*/
module LockProtocol {
  import opened Options
  import opened LockEvidence

  /** A path in the lock root; `closing` is the name used while a claim is finalised. */
  datatype Name = Name(base: string, closing: bool)

  datatype Stage =
    | Preparing(claim: Claim)
    | Published
    | Scanning(todo: set<Name>)
    | Chosen(todo: set<Name>, target: Name, seen: Claim, at: int, before: Probes)
    | Holding(todo: set<Name>, target: Name, seen: Claim, at: int, before: Probes)
    | Cleared(todo: set<Name>, target: Name, seen: Claim, at: int, before: Probes, after: Probes)
    | Restoring(target: Name)
    | Leaving
    | Passed
    | Owning
    | Closing
    | Gone

  datatype Proc = Proc(operation: string, identity: string, name: Name, stage: Stage)

  /** `quarantine[p]` is the claim process p moved aside.  The last five fields are
      history: which identity each base name was published with, every identity
      ever drawn, the identities that passed the last scan, the latest of them,
      and the identities that printed READY. */
  datatype System = System(
    clock: int,
    root: map<Name, Claim>,
    foreign: bool,
    procs: map<nat, Proc>,
    quarantine: map<nat, Claim>,
    archive: seq<Claim>,
    bound: map<string, string>,
    known: set<string>,
    passed: set<string>,
    last: string,
    ready: set<string>)

  datatype Label =
    | Tick(now: int)
    | Foreign(present: bool)
    | Start(p: nat, operation: string, identity: string, kind: OperationKind)
    | Publish(p: nat, base: string)
    | Glob(p: nat)
    | Observe(p: nat, n: Name, probes: Probes)
    | Quarantine(p: nat)
    | Recheck(p: nat, after: Probes)
    | Discard(p: nat)
    | Restore(p: nat)
    | FinalScan(p: nat)
    | Ready(p: nat)
    | Refuse(p: nat)
    | Leave(p: nat)
    | Abort(p: nat)
    | Write(n: Name, claim: Claim)
    | Close(p: nat)
    | CloseRemove(p: nat)
    | CloseReturn(p: nat)
    | Release(p: nat)
    | Crash(p: nat)

  /** From publication until READY or the decision to leave. */
  predicate Contending(stage: Stage) {
    stage.Published? || stage.Scanning? || stage.Chosen? || stage.Holding? || stage.Cleared? ||
    stage.Restoring? || stage.Passed?
  }

  predicate Holds(stage: Stage) {
    stage.Holding? || stage.Cleared? || stage.Restoring?
  }

  predicate SameOwner(s: System, p: nat)
    requires p in s.procs
  {
    var me := s.procs[p];
    me.name in s.root && s.root[me.name].operation == me.operation && s.root[me.name].identity == me.identity
  }

  function Move(s: System, p: nat, stage: Stage): System
    requires p in s.procs
  {
    s.(procs := s.procs[p := s.procs[p].(stage := stage)])
  }

  function RemoveOwn(s: System, p: nat): System
    requires p in s.procs
  {
    if SameOwner(s, p) then s.(root := s.root - {s.procs[p].name}) else s
  }

  /** What an owner or an executor may do to a claim in place: identity, operation
      and kind are written once, before publication, and a claim that still reads
      `live` afterwards has not been touched by a mutation. */
  predicate ContentStep(c: Claim, d: Claim) {
    && d.identity == c.identity && d.operation == c.operation && d.kind == c.kind
    && (d.state == Live ==> c.state == Live && d.markers == c.markers)
  }

  function FreshClaim(operation: string, identity: string, kind: OperationKind, now: int): Claim {
    Claim(operation, identity, kind, Some(now), Live, OtherPhase(""), "", map[])
  }

  // ------------------------------------------------------------------- steps

  function Started(s: System, p: nat, operation: string, identity: string, kind: OperationKind): System {
    s.(procs := s.procs[p := Proc(operation, identity, Name("", false),
                                  Preparing(FreshClaim(operation, identity, kind, s.clock)))],
       known := s.known + {identity})
  }

  function PublishedAs(s: System, p: nat, base: string): System
    requires p in s.procs && s.procs[p].stage.Preparing?
  {
    var me := s.procs[p];
    var name := Name(base, false);
    s.(root := s.root[name := me.stage.claim],
       procs := s.procs[p := me.(name := name, stage := Published)],
       bound := s.bound[base := me.identity])
  }

  function ChosenTarget(s: System, p: nat, n: Name, probes: Probes): System
    requires p in s.procs && s.procs[p].stage.Scanning? && n in s.root
  {
    Move(s, p, Chosen(s.procs[p].stage.todo - {n}, n, s.root[n], s.clock, probes))
  }

  function Quarantined(s: System, p: nat): System
    requires p in s.procs && s.procs[p].stage.Chosen? && s.procs[p].stage.target in s.root
  {
    var st := s.procs[p].stage;
    Move(s, p, Holding(st.todo, st.target, st.seen, st.at, st.before)).(
      root := s.root - {st.target},
      quarantine := s.quarantine[p := s.root[st.target]])
  }

  /** The held claim is deleted, or archived in the interrupted-restart case. */
  function Discarded(s: System, p: nat): System
    requires p in s.procs && s.procs[p].stage.Cleared? && p in s.quarantine
  {
    var st := s.procs[p].stage;
    Move(s, p, Scanning(st.todo)).(
      quarantine := s.quarantine - {p},
      archive := if Archived(st.seen, st.before) then s.archive + [s.quarantine[p]] else s.archive)
  }

  function Restored(s: System, p: nat): System
    requires p in s.procs && s.procs[p].stage.Restoring? && p in s.quarantine
  {
    Move(s, p, Leaving).(
      root := s.root[s.procs[p].stage.target := s.quarantine[p]],
      quarantine := s.quarantine - {p})
  }

  function PassedScan(s: System, p: nat): System
    requires p in s.procs
  {
    Move(s, p, Passed).(passed := s.passed + {s.procs[p].identity}, last := s.procs[p].identity)
  }

  function PrintedReady(s: System, p: nat): System
    requires p in s.procs
  {
    Move(s, p, Owning).(ready := s.ready + {s.procs[p].identity})
  }

  function Renamed(s: System, from: Name, to: Name, claim: Claim): System {
    s.(root := (s.root - {from})[to := claim])
  }

  /** One step; None when the label is not enabled. */
  function Next(s: System, l: Label): Option<System> {
    match l
    case Tick(now) => Some(s.(clock := now))
    case Foreign(present) => Some(s.(foreign := present))
    case Start(p, operation, identity, kind) =>
      if p in s.procs then None else Some(Started(s, p, operation, identity, kind))
    case Publish(p, base) =>
      if !(p in s.procs && s.procs[p].stage.Preparing?) then None
      // A rename onto an occupied path nests the pending directory; the identity
      // read back is not ours, so the process leaves without a claim.
      else if Name(base, false) in s.root then Some(Move(s, p, Gone))
      else Some(PublishedAs(s, p, base))
    case Glob(p) =>
      if !(p in s.procs && s.procs[p].stage.Published?) then None else
      Some(Move(s, p, Scanning(s.root.Keys - {s.procs[p].name})))
    case Observe(p, n, probes) =>
      if !(p in s.procs && s.procs[p].stage.Scanning? && n in s.procs[p].stage.todo) then None
      else if n !in s.root then Some(Move(s, p, Scanning(s.procs[p].stage.todo - {n})))
      else if s.foreign || !Accepts(s.root[n], s.clock, probes) then Some(Move(s, p, Leaving))
      else Some(ChosenTarget(s, p, n, probes))
    case Quarantine(p) =>
      if !(p in s.procs && s.procs[p].stage.Chosen?) then None
      else if s.procs[p].stage.target !in s.root then Some(Move(s, p, Leaving))
      else Some(Quarantined(s, p))
    case Recheck(p, after) =>
      if !(p in s.procs && s.procs[p].stage.Holding? && p in s.quarantine) then None else
      var st := s.procs[p].stage;
      if SameObservation(st.seen, s.quarantine[p]) && StillQuiet(st.seen, st.before, after)
      then Some(Move(s, p, Cleared(st.todo, st.target, st.seen, st.at, st.before, after)))
      else Some(Move(s, p, Restoring(st.target)))
    case Discard(p) =>
      if !(p in s.procs && s.procs[p].stage.Cleared? && p in s.quarantine) then None else Some(Discarded(s, p))
    case Restore(p) =>
      if !(p in s.procs && s.procs[p].stage.Restoring? && p in s.quarantine) then None
      else if s.procs[p].stage.target in s.root then Some(Move(s, p, Leaving))
      else Some(Restored(s, p))
    case FinalScan(p) =>
      if !(p in s.procs && s.procs[p].stage == Scanning({})) then None
      else if s.root.Keys <= {s.procs[p].name} && !s.foreign then Some(PassedScan(s, p))
      else Some(Move(s, p, Leaving))
    case Ready(p) =>
      if !(p in s.procs && s.procs[p].stage.Passed?) then None
      else if SameOwner(s, p) then Some(PrintedReady(s, p))
      else Some(Move(s, p, Leaving))
    case Refuse(p) =>
      // a failed file operation of the scan; a held claim is given back first
      if !(p in s.procs && Contending(s.procs[p].stage)) || s.procs[p].stage.Restoring? then None else
      var st := s.procs[p].stage;
      Some(Move(s, p, if Holds(st) then Restoring(st.target) else Leaving))
    case Leave(p) =>
      if !(p in s.procs && s.procs[p].stage.Leaving?) then None else Some(Move(RemoveOwn(s, p), p, Gone))
    case Abort(p) =>
      // the exit trap of a contender: its own claim goes, a held claim is abandoned
      if !(p in s.procs && (Contending(s.procs[p].stage) || s.procs[p].stage.Leaving?)) then None
      else Some(Move(RemoveOwn(s, p), p, Gone))
    case Write(n, claim) =>
      if !(n in s.root && ContentStep(s.root[n], claim)) then None else Some(s.(root := s.root[n := claim]))
    case Close(p) =>
      if !(p in s.procs && s.procs[p].stage.Owning?) then None
      else if !SameOwner(s, p) then Some(Move(s, p, Gone)) else
      var name := s.procs[p].name;
      Some(Renamed(Move(s, p, Closing), name, Name(name.base, true), s.root[name]))
    case CloseRemove(p) =>
      if !(p in s.procs && s.procs[p].stage.Closing?) then None else
      Some(Move(s.(root := s.root - {Name(s.procs[p].name.base, true)}), p, Gone))
    case CloseReturn(p) =>
      if !(p in s.procs && s.procs[p].stage.Closing?) then None else
      var name := s.procs[p].name;
      var closing := Name(name.base, true);
      if closing !in s.root || name in s.root then Some(Move(s, p, Gone))
      else Some(Renamed(Move(s, p, Gone), closing, name, s.root[closing].(state := RecoveryPending)))
    case Release(p) =>
      if !(p in s.procs && s.procs[p].stage.Owning?) then None else Some(Move(RemoveOwn(s, p), p, Gone))
    case Crash(p) =>
      if p !in s.procs then None else Some(Move(s, p, Gone))
  }

  // -------------------------------------------------------------------- runs

  predicate LiveIsClean(c: Claim) {
    c.state == Live ==> c.markers == map[]
  }

  /** A lock root with leftover claims of earlier processes, and nobody running. */
  ghost predicate Initial(s: System) {
    && s.procs == map[] && s.quarantine == map[] && s.passed == {} && s.ready == {}
    && (forall n :: n in s.root ==> n.base in s.bound && s.bound[n.base] == s.root[n].identity)
    && (forall a, b :: a in s.bound && b in s.bound && s.bound[a] == s.bound[b] ==> a == b)
    && (forall a :: a in s.bound ==> s.bound[a] in s.known)
    && (forall n, m :: n in s.root && m in s.root && n.base == m.base ==> n == m)
    && (forall n :: n in s.root ==> LiveIsClean(s.root[n]))
  }

  /** The step accepts, as a stale competitor, the claim of a process that is
      itself still contending. */
  ghost predicate TakesContender(s: System, l: Label) {
    && l.Observe? && l.n in s.root && !s.foreign && Accepts(s.root[l.n], s.clock, l.probes)
    && exists q :: q in s.procs && Contending(s.procs[q].stage) && s.procs[q].name == l.n
  }

  /** Identities are drawn from 128 random bits, and a temporary-directory suffix
      is not drawn twice for one operation. */
  ghost predicate Fresh(s: System, l: Label) {
    && (l.Start? ==> l.identity !in s.known)
    && (l.Publish? ==> l.base !in s.bound || Name(l.base, false) in s.root)
  }

  ghost predicate Assumed(s: System, l: Label) {
    Fresh(s, l) && !TakesContender(s, l)
  }

  /** No contender's own claim has gone stale before it printed READY. */
  ghost predicate Timely(s: System) {
    forall p :: p in s.procs && Contending(s.procs[p].stage) && s.procs[p].name in s.root ==>
      !Stale(s.root[s.procs[p].name], s.clock)
  }

  ghost predicate Run(states: seq<System>, labels: seq<Label>) {
    && |states| == |labels| + 1
    && Initial(states[0])
    && forall i {:trigger labels[i]} :: 0 <= i < |labels| ==> Next(states[i], labels[i]) == Some(states[i + 1])
  }

  ghost predicate FreshRun(states: seq<System>, labels: seq<Label>)
    requires |states| == |labels| + 1
  {
    forall i {:trigger labels[i]} :: 0 <= i < |labels| ==> Fresh(states[i], labels[i])
  }

  ghost predicate AssumedRun(states: seq<System>, labels: seq<Label>)
    requires |states| == |labels| + 1
  {
    forall i {:trigger labels[i]} :: 0 <= i < |labels| ==> Assumed(states[i], labels[i])
  }

  // -------------------------------------------------------------- invariants

  ghost predicate Named(stage: Stage) {
    Contending(stage) || stage.Leaving? || stage.Owning? || stage.Closing?
  }

  /** The facts every reachable state satisfies, one constructor per statement. */
  datatype Fact =
    | RootBound(n: Name)
    | BoundInjective(a: string, b: string)
    | BoundKnown(a: string)
    | OneNamePerBase(n: Name, m: Name)
    | ProcKnown(p: nat)
    | ProcsDistinct(p: nat, q: nat)
    | Prepared(p: nat, a: string)
    | ProcNamed(p: nat)
    | Visible(p: nat)
    | TargetBound(p: nat)
    | TargetSettled(p: nat, q: nat)
    | HeldNamed(h: nat)
    | HeldNotInRoot(h: nat, n: Name)
    | HeldOnce(h: nat, g: nat)
    | RootLast(n: Name)
    | HeldLast(h: nat)
    | StageRecorded(p: nat)
    | HistoryNested(id: string)

  ghost predicate True(s: System, f: Fact) {
    match f
    case RootBound(n) => n in s.root ==> n.base in s.bound && s.bound[n.base] == s.root[n].identity
    case BoundInjective(a, b) => a in s.bound && b in s.bound && s.bound[a] == s.bound[b] ==> a == b
    case BoundKnown(a) => a in s.bound ==> s.bound[a] in s.known
    case OneNamePerBase(n, m) => n in s.root && m in s.root && n.base == m.base ==> n == m
    case ProcKnown(p) => p in s.procs ==> s.procs[p].identity in s.known
    case ProcsDistinct(p, q) =>
      p in s.procs && q in s.procs && s.procs[p].identity == s.procs[q].identity ==> p == q
    case Prepared(p, a) =>
      p in s.procs && s.procs[p].stage.Preparing? ==>
        && s.procs[p].stage.claim.identity == s.procs[p].identity
        && s.procs[p].identity !in s.passed
        && (a in s.bound ==> s.bound[a] != s.procs[p].identity)
    case ProcNamed(p) =>
      p in s.procs && Named(s.procs[p].stage) ==>
        && !s.procs[p].name.closing
        && s.procs[p].name.base in s.bound
        && s.bound[s.procs[p].name.base] == s.procs[p].identity
    // A contender's claim is in the lock root from publication to READY.
    case Visible(p) => p in s.procs && Contending(s.procs[p].stage) ==> s.procs[p].name in s.root
    // A chosen target is not the claim of a process that is itself contending.
    case TargetBound(p) => p in s.procs && s.procs[p].stage.Chosen? ==> s.procs[p].stage.target.base in s.bound
    case TargetSettled(p, q) =>
      p in s.procs && q in s.procs && s.procs[p].stage.Chosen? && Contending(s.procs[q].stage) ==>
        s.procs[q].name.base != s.procs[p].stage.target.base
    // A held claim keeps its name, and that name is nowhere else.
    case HeldNamed(h) =>
      h in s.procs && Holds(s.procs[h].stage) ==>
        && h in s.quarantine
        && s.procs[h].stage.target.base in s.bound
        && s.bound[s.procs[h].stage.target.base] == s.quarantine[h].identity
    case HeldNotInRoot(h, n) =>
      h in s.procs && Holds(s.procs[h].stage) && n in s.root ==> s.procs[h].stage.target.base != n.base
    case HeldOnce(h, g) =>
      h in s.procs && g in s.procs && Holds(s.procs[h].stage) && Holds(s.procs[g].stage) && h != g ==>
        s.procs[h].stage.target.base != s.procs[g].stage.target.base
    // Wherever a claim lies from which it can be in the lock root again: if its
    // process passed the last scan, then no process passed after it.
    case RootLast(n) => n in s.root && s.root[n].identity in s.passed ==> s.root[n].identity == s.last
    case HeldLast(h) =>
      h in s.procs && Holds(s.procs[h].stage) && h in s.quarantine && s.quarantine[h].identity in s.passed ==>
        s.quarantine[h].identity == s.last
    case StageRecorded(p) =>
      p in s.procs ==>
        && (s.procs[p].stage.Passed? ==> s.procs[p].identity in s.passed)
        && (s.procs[p].stage.Owning? || s.procs[p].stage.Closing? ==> s.procs[p].identity in s.ready)
    case HistoryNested(id) => (id in s.ready ==> id in s.passed) && (id in s.passed ==> id in s.known)
  }

  /** Facts that say a contender's claim stays where it is, and what follows from it. */
  predicate Exclusive(f: Fact) {
    f.Visible? || f.TargetSettled? || f.RootLast? || f.HeldLast?
  }

  /** The facts about names and holders, and with `x` the exclusive ones too. */
  ghost predicate Facts(s: System, x: bool) {
    forall f :: x || !Exclusive(f) ==> True(s, f)
  }

  ghost predicate Inv(s: System) {
    Facts(s, true)
  }

  // ------------------------------------------------------------ preservation

  /** A change of stage that neither publishes, chooses nor takes hold of a claim. */
  ghost predicate PlainMove(from: Stage, to: Stage) {
    && !to.Preparing? && !to.Chosen? && !to.Passed? && !to.Owning? && (to.Closing? ==> from.Owning?)
    && (Contending(to) ==> Contending(from))
    && (Named(to) ==> Named(from))
    && (Holds(to) ==> Holds(from) && to.target == from.target)
  }

  lemma {:induction false} MoveKeepsInv(x: bool, s: System, p: nat, stage: Stage)
    requires Facts(s, x) && p in s.procs && PlainMove(s.procs[p].stage, stage)
    ensures Facts(Move(s, p, stage), x)
  {
    forall f | x || !Exclusive(f) ensures True(Move(s, p, stage), f) {
      assert True(s, f);
    }
  }

  lemma {:induction false} StartKeepsInv(x: bool, s: System, p: nat, operation: string, identity: string, kind: OperationKind)
    requires Facts(s, x) && p !in s.procs && identity !in s.known
    ensures Facts(Started(s, p, operation, identity, kind), x)
  {
    var t := Started(s, p, operation, identity, kind);
    forall f | x || !Exclusive(f) ensures True(t, f) {
      assert True(s, f);
      match f
      case ProcsDistinct(q, r) => assert True(s, ProcKnown(q)) && True(s, ProcKnown(r));
      case Prepared(q, a) => assert True(s, BoundKnown(a)) && True(s, HistoryNested(identity));
      case _ =>
    }
  }

  /** Facts that speak of the lock root and the history only. */
  ghost predicate AboutNames(f: Fact) {
    f.RootBound? || f.BoundInjective? || f.BoundKnown? || f.OneNamePerBase? || f.RootLast? || f.HistoryNested?
  }

  lemma {:induction false} PublishKeepsNames(x: bool, s: System, p: nat, base: string, f: Fact)
    requires Facts(s, x) && p in s.procs && s.procs[p].stage.Preparing? && base !in s.bound && AboutNames(f) && (x || !Exclusive(f))
    ensures True(PublishedAs(s, p, base), f)
  {
    assert True(s, f) && True(s, Prepared(p, base)) && True(s, ProcKnown(p));
    match f
    case BoundInjective(a, b) => assert True(s, Prepared(p, a)) && True(s, Prepared(p, b));
    case OneNamePerBase(n, m) => assert True(s, RootBound(n)) && True(s, RootBound(m));
    case _ =>
  }

  lemma {:induction false} PublishKeepsProcs(x: bool, s: System, p: nat, base: string, f: Fact)
    requires Facts(s, x) && p in s.procs && s.procs[p].stage.Preparing? && base !in s.bound && !AboutNames(f) && (x || !Exclusive(f))
    ensures True(PublishedAs(s, p, base), f)
  {
    assert True(s, f);
    match f
    case Prepared(q, a) => assert True(s, ProcsDistinct(p, q));
    case TargetSettled(q, r) => assert True(s, TargetBound(q));
    case HeldNotInRoot(h, n) => assert True(s, HeldNamed(h));
    case _ =>
  }

  /** A fresh claim appears in the lock root. */
  lemma {:induction false} PublishKeepsInv(x: bool, s: System, p: nat, base: string)
    requires Facts(s, x) && p in s.procs && s.procs[p].stage.Preparing? && base !in s.bound
    ensures Facts(PublishedAs(s, p, base), x)
  {
    forall f | x || !Exclusive(f) ensures True(PublishedAs(s, p, base), f) {
      if AboutNames(f) { PublishKeepsNames(x, s, p, base, f); } else { PublishKeepsProcs(x, s, p, base, f); }
    }
  }

  lemma {:induction false} ChooseKeepsInv(x: bool, s: System, p: nat, n: Name, probes: Probes)
    requires Facts(s, x) && p in s.procs && s.procs[p].stage.Scanning? && n in s.root
    requires x ==> forall q :: q in s.procs && Contending(s.procs[q].stage) ==> s.procs[q].name != n
    ensures Facts(ChosenTarget(s, p, n, probes), x)
  {
    var t := ChosenTarget(s, p, n, probes);
    assert True(s, RootBound(n));
    forall f | x || !Exclusive(f) ensures True(t, f) {
      assert True(s, f);
      match f
      case TargetSettled(q, r) =>
        if q == p && r in s.procs {
          assert True(s, Visible(r)) && True(s, OneNamePerBase(s.procs[r].name, n));
        }
      case _ =>
    }
  }

  lemma {:induction false} QuarantineKeepsInv(x: bool, s: System, p: nat)
    requires Facts(s, x) && p in s.procs && s.procs[p].stage.Chosen? && s.procs[p].stage.target in s.root
    ensures Facts(Quarantined(s, p), x)
  {
    var t := Quarantined(s, p);
    var target := s.procs[p].stage.target;
    assert True(s, RootBound(target)) && (x ==> True(s, RootLast(target)));
    forall f | x || !Exclusive(f) ensures True(t, f) {
      assert True(s, f);
      match f
      case Visible(q) => assert True(s, TargetSettled(p, q));
      case HeldNotInRoot(h, n) => assert True(s, OneNamePerBase(n, target));
      case HeldOnce(h, g) => assert True(s, HeldNotInRoot(h, target)) && True(s, HeldNotInRoot(g, target));
      case _ =>
    }
  }

  lemma {:induction false} DiscardKeepsInv(x: bool, s: System, p: nat)
    requires Facts(s, x) && p in s.procs && s.procs[p].stage.Cleared? && p in s.quarantine
    ensures Facts(Discarded(s, p), x)
  {
    forall f | x || !Exclusive(f) ensures True(Discarded(s, p), f) {
      assert True(s, f);
    }
  }

  lemma {:induction false} RestoreKeepsNames(x: bool, s: System, p: nat, f: Fact)
    requires Facts(s, x) && p in s.procs && s.procs[p].stage.Restoring? && p in s.quarantine
    requires s.procs[p].stage.target !in s.root && AboutNames(f) && (x || !Exclusive(f))
    ensures True(Restored(s, p), f)
  {
    assert True(s, f) && True(s, HeldNamed(p)) && (x ==> True(s, HeldLast(p)));
    match f
    case OneNamePerBase(n, m) => assert True(s, HeldNotInRoot(p, n)) && True(s, HeldNotInRoot(p, m));
    case _ =>
  }

  lemma {:induction false} RestoreKeepsProcs(x: bool, s: System, p: nat, f: Fact)
    requires Facts(s, x) && p in s.procs && s.procs[p].stage.Restoring? && p in s.quarantine
    requires s.procs[p].stage.target !in s.root && !AboutNames(f) && (x || !Exclusive(f))
    ensures True(Restored(s, p), f)
  {
    assert True(s, f);
    match f
    case HeldNotInRoot(h, n) => assert True(s, HeldOnce(h, p));
    case _ =>
  }

  lemma {:induction false} RestoreKeepsInv(x: bool, s: System, p: nat)
    requires Facts(s, x) && p in s.procs && s.procs[p].stage.Restoring? && p in s.quarantine
    requires s.procs[p].stage.target !in s.root
    ensures Facts(Restored(s, p), x)
  {
    forall f | x || !Exclusive(f) ensures True(Restored(s, p), f) {
      if AboutNames(f) { RestoreKeepsNames(x, s, p, f); } else { RestoreKeepsProcs(x, s, p, f); }
    }
  }

  /** The heart of mutual exclusion.  When a process finds the lock root empty but
      for its own claim, no other contender is visible, hence nobody holds a claim
      that could come back: every earlier owner's claim is gone for good. */
  lemma {:induction false} PassKeepsInv(x: bool, s: System, p: nat)
    requires Facts(s, x) && p in s.procs && s.procs[p].stage == Scanning({}) && s.root.Keys <= {s.procs[p].name}
    ensures Facts(PassedScan(s, p), x)
  {
    var t := PassedScan(s, p);
    assert True(s, ProcNamed(p)) && True(s, ProcKnown(p));
    forall f | x || !Exclusive(f) ensures True(t, f) {
      assert True(s, f);
      match f
      case Prepared(q, a) => assert True(s, ProcsDistinct(p, q));
      case RootLast(n) => assert True(s, RootBound(n));
      case HeldLast(h) =>
        if h in s.procs && Holds(s.procs[h].stage) {
          assert True(s, Visible(h)) && True(s, ProcNamed(h)) && True(s, ProcsDistinct(h, p));
        }
      case _ =>
    }
  }

  lemma {:induction false} ReadyKeepsInv(x: bool, s: System, p: nat)
    requires Facts(s, x) && p in s.procs && s.procs[p].stage.Passed?
    ensures Facts(PrintedReady(s, p), x)
  {
    assert True(s, StageRecorded(p));
    forall f | x || !Exclusive(f) ensures True(PrintedReady(s, p), f) {
      assert True(s, f);
    }
  }

  lemma {:induction false} WriteKeepsInv(x: bool, s: System, n: Name, claim: Claim)
    requires Facts(s, x) && n in s.root && ContentStep(s.root[n], claim)
    ensures Facts(s.(root := s.root[n := claim]), x)
  {
    var t := s.(root := s.root[n := claim]);
    forall f | x || !Exclusive(f) ensures True(t, f) {
      assert True(s, f);
    }
  }

  /** A process that no longer contends takes its own claim out of the lock root. */
  lemma {:induction false} OwnRemovalKeepsInv(x: bool, s: System, p: nat, from: Name)
    requires Facts(s, x) && p in s.procs && Named(s.procs[p].stage) && from.base == s.procs[p].name.base
    ensures Facts(Move(s, p, Gone).(root := s.root - {from}), x)
  {
    var t := Move(s, p, Gone).(root := s.root - {from});
    assert True(s, ProcNamed(p));
    forall f | x || !Exclusive(f) ensures True(t, f) {
      assert True(s, f);
      match f
      case Visible(q) => assert True(s, ProcNamed(q)) && True(s, ProcsDistinct(p, q));
      case _ =>
    }
  }

  /** No contender's claim has this name or its closing form. */
  ghost predicate Uncontended(s: System, base: string) {
    forall q :: q in s.procs && Contending(s.procs[q].stage) ==> s.procs[q].name.base != base
  }

  lemma {:induction false} RenameKeepsInv(x: bool, s: System, from: Name, to: Name, claim: Claim)
    requires Facts(s, x) && from.base == to.base && Uncontended(s, from.base)
    requires from in s.root && claim.identity == s.root[from].identity
    ensures Facts(Renamed(s, from, to, claim), x)
  {
    var t := Renamed(s, from, to, claim);
    assert True(s, RootBound(from)) && (x ==> True(s, RootLast(from)));
    forall f | x || !Exclusive(f) ensures True(t, f) {
      assert True(s, f);
      match f
      case OneNamePerBase(n, m) => assert True(s, OneNamePerBase(n, from)) && True(s, OneNamePerBase(m, from));
      case HeldNotInRoot(h, n) => assert True(s, HeldNotInRoot(h, from));
      case _ =>
    }
  }

  /** A process that no longer contends renames its own claim within the lock root. */
  lemma {:induction false} OwnRenameKeepsInv(x: bool, s: System, p: nat, stage: Stage, from: Name, to: Name, claim: Claim)
    requires Facts(s, x) && p in s.procs && PlainMove(s.procs[p].stage, stage) && !Contending(stage)
    requires Named(s.procs[p].stage) && from.base == to.base == s.procs[p].name.base
    requires from in s.root && claim.identity == s.root[from].identity
    ensures Facts(Renamed(Move(s, p, stage), from, to, claim), x)
  {
    var t := Move(s, p, stage);
    MoveKeepsInv(x, s, p, stage);
    assert True(s, ProcNamed(p));
    forall q | q in t.procs && Contending(t.procs[q].stage) ensures t.procs[q].name.base != from.base {
      assert True(s, ProcNamed(q)) && True(s, ProcsDistinct(p, q));
    }
    RenameKeepsInv(x, t, from, to, claim);
  }

  lemma {:induction false} EndKeepsInv(x: bool, s: System, p: nat)
    requires Facts(s, x) && p in s.procs && Named(s.procs[p].stage)
    ensures Facts(Move(RemoveOwn(s, p), p, Gone), x)
  {
    var n := s.procs[p].name;
    if SameOwner(s, p) {
      OwnRemovalKeepsInv(x, s, p, n);
      assert Move(RemoveOwn(s, p), p, Gone) == Move(s, p, Gone).(root := s.root - {n});
    } else {
      MoveKeepsInv(x, s, p, Gone);
    }
  }

  lemma {:induction false} ClosingKeepsInv(x: bool, s: System, l: Label)
    requires Facts(s, x) && Next(s, l).Some? && (l.Close? || l.CloseRemove? || l.CloseReturn?)
    ensures Facts(Next(s, l).value, x)
  {
    var name := s.procs[l.p].name;
    var closing := Name(name.base, true);
    if l.Close? && SameOwner(s, l.p) {
      OwnRenameKeepsInv(x, s, l.p, Closing, name, closing, s.root[name]);
    } else if l.CloseRemove? {
      OwnRemovalKeepsInv(x, s, l.p, closing);
      assert Next(s, l).value == Move(s, l.p, Gone).(root := s.root - {closing});
    } else if l.CloseReturn? && closing in s.root && name !in s.root {
      OwnRenameKeepsInv(x, s, l.p, Gone, closing, name, s.root[closing].(state := RecoveryPending));
    } else {
      MoveKeepsInv(x, s, l.p, Gone);
    }
  }

  lemma {:induction false} ScanStepKeepsInv(x: bool, s: System, l: Label)
    requires Facts(s, x) && Fresh(s, l) && (x ==> !TakesContender(s, l)) && Next(s, l).Some?
    requires l.Start? || l.Publish? || l.Glob? || l.Observe? || l.Quarantine? || l.Recheck? || l.Discard? || l.Restore?
    ensures Facts(Next(s, l).value, x)
  {
    var t := Next(s, l).value;
    match l
    case Start(p, operation, identity, kind) => StartKeepsInv(x, s, p, operation, identity, kind);
    case Publish(p, base) =>
      if Name(base, false) in s.root { MoveKeepsInv(x, s, p, Gone); } else { PublishKeepsInv(x, s, p, base); }
    case Glob(p) => MoveKeepsInv(x, s, p, t.procs[p].stage);
    case Observe(p, n, probes) =>
      if t.procs[p].stage.Chosen? { ChooseKeepsInv(x, s, p, n, probes); } else { MoveKeepsInv(x, s, p, t.procs[p].stage); }
    case Quarantine(p) =>
      if s.procs[p].stage.target !in s.root { MoveKeepsInv(x, s, p, Leaving); } else { QuarantineKeepsInv(x, s, p); }
    case Recheck(p, _) => MoveKeepsInv(x, s, p, t.procs[p].stage);
    case Discard(p) => DiscardKeepsInv(x, s, p);
    case Restore(p) =>
      if s.procs[p].stage.target in s.root { MoveKeepsInv(x, s, p, Leaving); } else { RestoreKeepsInv(x, s, p); }
  }

  lemma {:induction false} VerdictStepKeepsInv(x: bool, s: System, l: Label)
    requires Facts(s, x) && Fresh(s, l) && (x ==> !TakesContender(s, l)) && Next(s, l).Some?
    requires l.FinalScan? || l.Ready? || l.Refuse? || l.Leave? || l.Abort?
    ensures Facts(Next(s, l).value, x)
  {
    var t := Next(s, l).value;
    match l
    case FinalScan(p) =>
      if t.procs[p].stage.Passed? { PassKeepsInv(x, s, p); } else { MoveKeepsInv(x, s, p, Leaving); }
    case Ready(p) =>
      if SameOwner(s, p) { ReadyKeepsInv(x, s, p); } else { MoveKeepsInv(x, s, p, Leaving); }
    case Refuse(p) => MoveKeepsInv(x, s, p, t.procs[p].stage);
    case Leave(p) => EndKeepsInv(x, s, p);
    case Abort(p) => EndKeepsInv(x, s, p);
  }

  /** Every step of every process keeps the facts about names and holders, and
      the exclusive ones unless it takes a contender's claim. */
  lemma {:induction false} StepKeepsFacts(x: bool, s: System, l: Label)
    requires Facts(s, x) && Fresh(s, l) && (x ==> !TakesContender(s, l)) && Next(s, l).Some?
    ensures Facts(Next(s, l).value, x)
  {
    var t := Next(s, l).value;
    match l
    case Tick(_) => forall f | x || !Exclusive(f) ensures True(t, f) { assert True(s, f); }
    case Foreign(_) => forall f | x || !Exclusive(f) ensures True(t, f) { assert True(s, f); }
    case Write(n, claim) => WriteKeepsInv(x, s, n, claim);
    case Close(_) => ClosingKeepsInv(x, s, l);
    case CloseRemove(_) => ClosingKeepsInv(x, s, l);
    case CloseReturn(_) => ClosingKeepsInv(x, s, l);
    case Release(p) => EndKeepsInv(x, s, p);
    case Crash(p) => MoveKeepsInv(x, s, p, Gone);
    case _ =>
      if l.FinalScan? || l.Ready? || l.Refuse? || l.Leave? || l.Abort? {
        VerdictStepKeepsInv(x, s, l);
      } else {
        ScanStepKeepsInv(x, s, l);
      }
  }

  lemma {:induction false} StepKeepsInv(s: System, l: Label)
    requires Inv(s) && Assumed(s, l) && Next(s, l).Some?
    ensures Inv(Next(s, l).value)
  {
    StepKeepsFacts(true, s, l);
  }

  /** Taking a contender's claim is the one way to lose the invariant. */
  lemma {:induction false} InvLostOnlyByTakingContender(s: System, l: Label)
    requires Inv(s) && Fresh(s, l) && Next(s, l).Some?
    ensures Inv(Next(s, l).value) <==> !TakesContender(s, l)
  {
    if TakesContender(s, l) {
      var q :| q in s.procs && Contending(s.procs[q].stage) && s.procs[q].name == l.n;
      assert !True(ChosenTarget(s, l.p, l.n, l.probes), TargetSettled(l.p, q));
    } else {
      StepKeepsInv(s, l);
    }
  }

  /** Contenders that print READY before their heartbeat lapses are never taken. */
  lemma {:induction false} TimelyIsNotTaken(s: System, l: Label)
    requires Timely(s)
    ensures !TakesContender(s, l)
  {
  }

  lemma {:induction false} TimelyRunIsAssumed(states: seq<System>, labels: seq<Label>)
    requires |states| == |labels| + 1
    requires forall i {:trigger labels[i]} :: 0 <= i < |labels| ==> Timely(states[i]) && Fresh(states[i], labels[i])
    ensures AssumedRun(states, labels)
  {
    forall i | 0 <= i < |labels| ensures Assumed(states[i], labels[i]) {
      assert Fresh(states[i], labels[i]);
      TimelyIsNotTaken(states[i], labels[i]);
    }
  }

  // -------------------------------------------------------- mutual exclusion

  lemma {:induction false} InitialFacts(s: System)
    requires Initial(s)
    ensures Inv(s)
  {
    forall f ensures True(s, f) {}
  }

  lemma {:induction false} RunKeepsInv(states: seq<System>, labels: seq<Label>, i: nat)
    requires Run(states, labels) && AssumedRun(states, labels) && i < |states|
    ensures Inv(states[i])
  {
    if i == 0 {
      InitialFacts(states[0]);
    } else {
      RunKeepsInv(states, labels, i - 1);
      assert Next(states[i - 1], labels[i - 1]) == Some(states[i]) && Assumed(states[i - 1], labels[i - 1]);
      StepKeepsInv(states[i - 1], labels[i - 1]);
    }
  }

  /** Mutual exclusion over every run of any number of processes, with crashes,
      quarantines and restores: two processes that printed READY never both have
      their claim in the lock root. */
  lemma {:induction false} MutualExclusion(states: seq<System>, labels: seq<Label>, i: nat, n: Name, m: Name)
    requires Run(states, labels) && AssumedRun(states, labels) && i < |states|
    requires n in states[i].root && m in states[i].root
    requires states[i].root[n].identity in states[i].ready && states[i].root[m].identity in states[i].ready
    ensures n == m
  {
    RunKeepsInv(states, labels, i);
    var s := states[i];
    assert True(s, HistoryNested(s.root[n].identity)) && True(s, HistoryNested(s.root[m].identity));
    assert True(s, RootLast(n)) && True(s, RootLast(m)) && True(s, RootBound(n)) && True(s, RootBound(m));
    assert True(s, BoundInjective(n.base, m.base)) && True(s, OneNamePerBase(n, m));
  }

  /** Hence at most one owner passes the check that precedes every command. */
  lemma {:induction false} OneOwnerPassesSameOwner(states: seq<System>, labels: seq<Label>, i: nat, p: nat, q: nat)
    requires Run(states, labels) && AssumedRun(states, labels) && i < |states|
    requires p in states[i].procs && states[i].procs[p].stage.Owning? && SameOwner(states[i], p)
    requires q in states[i].procs && states[i].procs[q].stage.Owning? && SameOwner(states[i], q)
    ensures p == q
  {
    RunKeepsInv(states, labels, i);
    var s := states[i];
    assert True(s, StageRecorded(p)) && True(s, StageRecorded(q)) && True(s, ProcsDistinct(p, q));
    MutualExclusion(states, labels, i, s.procs[p].name, s.procs[q].name);
  }

  // ---------------------------------------------------- evidence is not lost

  /** What holds of the claims themselves in every run, whatever is taken. */
  datatype ClaimFact =
    | CleanInRoot(n: Name)
    | CleanHeld(h: nat)
    | CleanPrepared(p: nat)
    | FreeHands(p: nat)
    | SeenAccepted(p: nat)
    | ClearedMatches(p: nat)

  ghost predicate Classified(stage: Stage) {
    stage.Chosen? || stage.Holding? || stage.Cleared?
  }

  ghost predicate Sound(s: System, f: ClaimFact) {
    match f
    case CleanInRoot(n) => n in s.root ==> LiveIsClean(s.root[n])
    case CleanHeld(h) => h in s.quarantine ==> LiveIsClean(s.quarantine[h])
    case CleanPrepared(p) => p in s.procs && s.procs[p].stage.Preparing? ==> LiveIsClean(s.procs[p].stage.claim)
    case FreeHands(p) =>
      p in s.quarantine ==> p in s.procs && (Holds(s.procs[p].stage) || s.procs[p].stage.Leaving? || s.procs[p].stage.Gone?)
    case SeenAccepted(p) =>
      p in s.procs && Classified(s.procs[p].stage) ==>
        LiveIsClean(s.procs[p].stage.seen) && Accepts(s.procs[p].stage.seen, s.procs[p].stage.at, s.procs[p].stage.before)
    case ClearedMatches(p) =>
      p in s.procs && s.procs[p].stage.Cleared? && p in s.quarantine ==>
        && SameObservation(s.procs[p].stage.seen, s.quarantine[p])
        && StillQuiet(s.procs[p].stage.seen, s.procs[p].stage.before, s.procs[p].stage.after)
  }

  ghost predicate AllSound(s: System) {
    forall f :: Sound(s, f)
  }

  /** The steps from starting up to the end of the scan. */
  predicate InScan(l: Label) {
    l.Start? || l.Publish? || l.Glob? || l.Observe? || l.Quarantine? || l.Recheck? || l.Discard? || l.Restore?
  }

  lemma {:induction false} StepKeepsRootCleanInScan(s: System, l: Label, n: Name)
    requires InScan(l) && AllSound(s) && Next(s, l).Some?
    ensures Sound(Next(s, l).value, CleanInRoot(n))
  {
    assert Sound(s, CleanInRoot(n));
    if l.Publish? { assert Sound(s, CleanPrepared(l.p)); }
    if l.Restore? { assert Sound(s, CleanHeld(l.p)); }
  }

  lemma {:induction false} StepKeepsRootClean(s: System, l: Label, n: Name)
    requires AllSound(s) && Next(s, l).Some?
    ensures Sound(Next(s, l).value, CleanInRoot(n))
  {
    if InScan(l) {
      StepKeepsRootCleanInScan(s, l, n);
    } else {
      assert Sound(s, CleanInRoot(n));
      if l.Close? { assert Sound(s, CleanInRoot(s.procs[l.p].name)); }
    }
  }

  /** The quarantine of a process changes only by its own rename. */
  lemma {:induction false} HeldChange(s: System, l: Label, h: nat)
    requires Next(s, l).Some? && h in Next(s, l).value.quarantine
    ensures || (h in s.quarantine && Next(s, l).value.quarantine[h] == s.quarantine[h])
            || (l == Quarantine(h) && h in s.procs && s.procs[h].stage.Chosen? &&
                s.procs[h].stage.target in s.root && Next(s, l).value.quarantine[h] == s.root[s.procs[h].stage.target])
  {
  }

  ghost predicate Acts(l: Label, p: nat) {
    !l.Tick? && !l.Foreign? && !l.Write? && l.p == p
  }

  ghost predicate StageKept(s: System, l: Label, p: nat) {
    Next(s, l).Some? ==>
      && (p in Next(s, l).value.procs <==> p in s.procs)
      && (p in s.procs ==> Next(s, l).value.procs[p] == s.procs[p])
  }

  lemma {:induction false} OthersKeepStageInScan(s: System, l: Label, p: nat)
    requires InScan(l) && !Acts(l, p)
    ensures StageKept(s, l, p)
  {
  }

  /** A step changes the stage of the process that takes it and of no other. */
  lemma {:induction false} OthersKeepStage(s: System, l: Label, p: nat)
    requires !Acts(l, p)
    ensures StageKept(s, l, p)
  {
    if InScan(l) { OthersKeepStageInScan(s, l, p); }
  }

  /** How a process can come to stand at a classified claim. */
  ghost predicate ClassifiedBefore(s: System, l: Label, p: nat)
    requires Next(s, l).Some? && p in Next(s, l).value.procs && Classified(Next(s, l).value.procs[p].stage)
  {
    && p in s.procs
    && var now, was := Next(s, l).value.procs[p].stage, s.procs[p].stage;
    || (Classified(was) && now.seen == was.seen && now.at == was.at && now.before == was.before)
    || (l.Observe? && l.p == p && l.n in s.root && now == ChosenTarget(s, p, l.n, l.probes).procs[p].stage)
  }

  lemma {:induction false} ClassifiedInScan(s: System, l: Label, p: nat)
    requires InScan(l) && Next(s, l).Some? && p in Next(s, l).value.procs && Classified(Next(s, l).value.procs[p].stage)
    ensures ClassifiedBefore(s, l, p)
  {
    if !Acts(l, p) { OthersKeepStage(s, l, p); }
  }

  /** A classified claim is carried unchanged from the observation that accepted it. */
  lemma {:induction false} ClassifiedChange(s: System, l: Label, p: nat)
    requires Next(s, l).Some? && p in Next(s, l).value.procs && Classified(Next(s, l).value.procs[p].stage)
    ensures ClassifiedBefore(s, l, p)
  {
    if InScan(l) {
      ClassifiedInScan(s, l, p);
    } else if !Acts(l, p) {
      OthersKeepStage(s, l, p);
    }
  }

  lemma {:induction false} ChosenWasAccepted(s: System, l: Label)
    requires l.Observe? && Next(s, l).Some? && Next(s, l).value.procs[l.p].stage.Chosen?
    ensures l.n in s.root && Accepts(s.root[l.n], s.clock, l.probes)
  {
  }

  /** How a process can come to hold a claim cleared for discarding. */
  ghost predicate ClearedBefore(s: System, l: Label, p: nat)
    requires Next(s, l).Some? && p in Next(s, l).value.procs && Next(s, l).value.procs[p].stage.Cleared?
  {
    && p in s.procs
    && var now, was := Next(s, l).value.procs[p].stage, s.procs[p].stage;
    || now == was
    || (was.Holding? && p in s.quarantine && Next(s, l).value.quarantine == s.quarantine && now.seen == was.seen &&
        SameObservation(now.seen, s.quarantine[p]) && StillQuiet(now.seen, now.before, now.after))
  }

  lemma {:induction false} ClearedInScan(s: System, l: Label, p: nat)
    requires InScan(l) && Next(s, l).Some? && p in Next(s, l).value.procs && Next(s, l).value.procs[p].stage.Cleared?
    ensures ClearedBefore(s, l, p)
  {
    if !Acts(l, p) { OthersKeepStage(s, l, p); }
  }

  lemma {:induction false} ClearedChange(s: System, l: Label, p: nat)
    requires Next(s, l).Some? && p in Next(s, l).value.procs && Next(s, l).value.procs[p].stage.Cleared?
    ensures ClearedBefore(s, l, p)
  {
    if InScan(l) {
      ClearedInScan(s, l, p);
    } else if !Acts(l, p) {
      OthersKeepStage(s, l, p);
    }
  }

  lemma {:induction false} OwnFreeHandsInScan(s: System, l: Label, p: nat)
    requires Next(s, l).Some? && Sound(s, FreeHands(p)) && Acts(l, p) && InScan(l)
    ensures Sound(Next(s, l).value, FreeHands(p))
  {
    if p in Next(s, l).value.quarantine { HeldChange(s, l, p); }
  }

  lemma {:induction false} OwnFreeHands(s: System, l: Label, p: nat)
    requires Next(s, l).Some? && Sound(s, FreeHands(p)) && Acts(l, p)
    ensures Sound(Next(s, l).value, FreeHands(p))
  {
    if InScan(l) {
      OwnFreeHandsInScan(s, l, p);
    } else if p in Next(s, l).value.quarantine {
      HeldChange(s, l, p);
    }
  }

  lemma {:induction false} FreeHandsChange(s: System, l: Label, p: nat)
    requires Next(s, l).Some? && Sound(s, FreeHands(p))
    ensures Sound(Next(s, l).value, FreeHands(p))
  {
    if Acts(l, p) {
      OwnFreeHands(s, l, p);
    } else {
      OthersKeepStage(s, l, p);
      if p in Next(s, l).value.quarantine { HeldChange(s, l, p); }
    }
  }

  lemma {:induction false} PreparedChange(s: System, l: Label, p: nat)
    requires Next(s, l).Some? && Sound(s, CleanPrepared(p))
    ensures Sound(Next(s, l).value, CleanPrepared(p))
  {
    if !Acts(l, p) { OthersKeepStage(s, l, p); }
  }

  lemma {:induction false} StepKeepsSound(s: System, l: Label)
    requires AllSound(s) && Next(s, l).Some?
    ensures AllSound(Next(s, l).value)
  {
    var t := Next(s, l).value;
    forall f ensures Sound(t, f) {
      assert Sound(s, f);
      match f
      case CleanInRoot(n) => StepKeepsRootClean(s, l, n);
      case CleanHeld(h) =>
        if h in t.quarantine {
          HeldChange(s, l, h);
          if l == Quarantine(h) { assert Sound(s, CleanInRoot(s.procs[h].stage.target)); }
        }
      case CleanPrepared(p) => PreparedChange(s, l, p);
      case FreeHands(p) => FreeHandsChange(s, l, p);
      case SeenAccepted(p) =>
        if p in t.procs && Classified(t.procs[p].stage) {
          ClassifiedChange(s, l, p);
          if l.Observe? && l.p == p {
            ChosenWasAccepted(s, l);
            assert Sound(s, CleanInRoot(l.n));
          }
        }
      case ClearedMatches(p) =>
        if p in t.procs && t.procs[p].stage.Cleared? && p in t.quarantine {
          ClearedChange(s, l, p);
          HeldChange(s, l, p);
        }
    }
  }

  lemma {:induction false} RunKeepsSound(states: seq<System>, labels: seq<Label>, i: nat)
    requires Run(states, labels) && i < |states|
    ensures AllSound(states[i])
  {
    if i == 0 {
      forall f ensures Sound(states[0], f) {}
    } else {
      RunKeepsSound(states, labels, i - 1);
      assert Next(states[i - 1], labels[i - 1]) == Some(states[i]);
      StepKeepsSound(states[i - 1], labels[i - 1]);
    }
  }

  /** Whenever, in any run, a contender discards a claim, the directory it deletes
      or archives is the one it classified: same identity, heartbeat, state and
      markers.  An attempt that started and did not finish goes only in one of the
      three named cases, with every probe a definite no before and after the move. */
  lemma {:induction false} DiscardedEvidenceWasClassified(states: seq<System>, labels: seq<Label>, i: nat)
    requires Run(states, labels) && i < |labels| && labels[i].Discard?
    ensures labels[i].p in states[i].procs && states[i].procs[labels[i].p].stage.Cleared? && labels[i].p in states[i].quarantine
    ensures var st := states[i].procs[labels[i].p].stage; var claim := states[i].quarantine[labels[i].p];
      && claim.operation == st.seen.operation && claim.identity == st.seen.identity
      && claim.heartbeat == st.seen.heartbeat && claim.state == st.seen.state
      && claim.markers == st.seen.markers
      && (claim.state != Live ==> claim == st.seen)
      && (claim.state == Live ==> claim.markers == map[])
      && Stale(claim, st.at)
      && (Unresolved(claim) ==>
           && HostQuiet(st.before) && HostQuiet(st.after)
           && (|| (claim.phase == DaemonStart && claim.kind in {InitialSetup, MissingDaemonRepair})
               || claim.phase == StateOwnerRelease
               || (claim.phase == PersistentServiceRestart && st.before.launcher == No && st.after.launcher == No)))
  {
    RunKeepsSound(states, labels, i);
    var s, p := states[i], labels[i].p;
    assert Next(s, labels[i]) == Some(states[i + 1]);
    var st, claim := s.procs[p].stage, s.quarantine[p];
    assert Sound(s, SeenAccepted(p)) && Sound(s, ClearedMatches(p)) && Sound(s, CleanHeld(p));
    if claim.state != Live {
      SameObservationSameMarkers(st.seen, claim);
      if Unresolved(claim) {
        UnresolvedAcceptedOnlyProbeProved(claim, st.at, st.before);
        assert ProbeProved(claim, ReadEvidence(claim), st.before);
      }
    }
  }

  // ------------------------------------------------------------ conservation

  ghost predicate Stored(s: System, id: string) {
    || (exists n :: n in s.root && s.root[n].identity == id)
    || (exists h :: h in s.quarantine && s.quarantine[h].identity == id)
  }

  ghost predicate OwnHand(s: System, l: Label, id: string) {
    (l.Leave? || l.Abort? || l.Release? || l.CloseRemove?) && l.p in s.procs && s.procs[l.p].identity == id
  }

  /** Where a claim of the lock root can be after one step. */
  ghost predicate RootClaimAccounted(s: System, l: Label, n: Name, t: System)
    requires n in s.root
  {
    var id := s.root[n].identity;
    || (n in t.root && t.root[n].identity == id)
    || (l.Quarantine? && l.p in t.quarantine && t.quarantine[l.p].identity == id)
    || (Name(n.base, !n.closing) in t.root && t.root[Name(n.base, !n.closing)].identity == id)
    || OwnHand(s, l, id)
  }

  lemma {:induction false} ClosingClaimGoes(s: System, l: Label, n: Name)
    requires Facts(s, false) && Next(s, l).Some? && n in s.root && (l.Close? || l.CloseRemove? || l.CloseReturn?)
    ensures RootClaimAccounted(s, l, n, Next(s, l).value)
  {
    assert True(s, RootBound(n)) && True(s, ProcNamed(l.p));
    assert True(s, OneNamePerBase(n, s.procs[l.p].name));
  }

  lemma {:induction false} RootClaimGoes(s: System, l: Label, n: Name)
    requires Facts(s, false) && Next(s, l).Some? && n in s.root
    ensures RootClaimAccounted(s, l, n, Next(s, l).value)
  {
    if l.Close? || l.CloseRemove? || l.CloseReturn? {
      ClosingClaimGoes(s, l, n);
    }
  }

  /** Where a quarantined claim can be after one step. */
  ghost predicate HeldClaimAccounted(s: System, l: Label, h: nat, t: System)
    requires h in s.quarantine
  {
    || (h in t.quarantine && t.quarantine[h] == s.quarantine[h])
    || (exists n :: n in t.root && t.root[n] == s.quarantine[h])
    || l == Discard(h)
  }

  lemma {:induction false} HeldClaimGoesInScan(s: System, l: Label, h: nat)
    requires AllSound(s) && Next(s, l).Some? && h in s.quarantine && InScan(l)
    ensures HeldClaimAccounted(s, l, h, Next(s, l).value)
  {
    assert Sound(s, FreeHands(h));
    if l == Restore(h) && s.procs[h].stage.target !in s.root {
      assert Next(s, l).value.root[s.procs[h].stage.target] == s.quarantine[h];
    }
  }

  lemma {:induction false} HeldClaimGoes(s: System, l: Label, h: nat)
    requires AllSound(s) && Next(s, l).Some? && h in s.quarantine
    ensures HeldClaimAccounted(s, l, h, Next(s, l).value)
  {
    if InScan(l) { HeldClaimGoesInScan(s, l, h); }
  }

  lemma {:induction false} RunKeepsFacts(states: seq<System>, labels: seq<Label>, i: nat)
    requires Run(states, labels) && FreshRun(states, labels) && i < |states|
    ensures Facts(states[i], false)
  {
    if i == 0 {
      InitialFacts(states[0]);
    } else {
      RunKeepsFacts(states, labels, i - 1);
      assert Next(states[i - 1], labels[i - 1]) == Some(states[i]) && Fresh(states[i - 1], labels[i - 1]);
      StepKeepsFacts(false, states[i - 1], labels[i - 1]);
    }
  }

  /** In every run, also when contenders' claims are taken, a claim leaves the host
      only by its own process's hand or by a contender's discard, which the
      theorem above justifies. */
  lemma {:induction false} NoClaimVanishes(states: seq<System>, labels: seq<Label>, i: nat, id: string)
    requires Run(states, labels) && FreshRun(states, labels) && i < |labels| && Stored(states[i], id)
    ensures || Stored(states[i + 1], id)
            || OwnHand(states[i], labels[i], id)
            || (labels[i].Discard? && labels[i].p in states[i].quarantine && states[i].quarantine[labels[i].p].identity == id)
  {
    RunKeepsFacts(states, labels, i);
    RunKeepsSound(states, labels, i);
    var s, l := states[i], labels[i];
    assert Next(s, l) == Some(states[i + 1]);
    if n :| n in s.root && s.root[n].identity == id {
      RootClaimGoes(s, l, n);
    } else {
      var h :| h in s.quarantine && s.quarantine[h].identity == id;
      HeldClaimGoes(s, l, h);
    }
  }

  // ------------------------------- why a contender's claim must not be taken

  /** A set of states that holds the initial ones and is closed under steps with fresh names. */
  ghost predicate Closed(states: iset<System>) {
    && (forall s :: Initial(s) ==> s in states)
    && (forall s, l :: s in states && Fresh(s, l) && Next(s, l).Some? ==> Next(s, l).value in states)
  }

  /** Reachable by steps with fresh names, whatever claims they take. */
  ghost predicate Reachable(s: System) {
    forall states: iset<System> :: Closed(states) ==> s in states
  }

  lemma {:induction false} Extend(s: System, l: Label) returns (t: System)
    requires Reachable(s) && Fresh(s, l) && Next(s, l).Some?
    ensures Reachable(t) && t == Next(s, l).value
  {
    t := Next(s, l).value;
    forall states: iset<System> | Closed(states) ensures t in states {
      assert s in states;
    }
  }

  /** What the steps below leave alone. */
  ghost predicate SameHost(s: System, t: System) {
    t.clock == s.clock && t.foreign == s.foreign
  }

  /** No name or identity was drawn. */
  ghost predicate NothingDrawn(s: System, t: System) {
    t.known == s.known && t.bound == s.bound
  }

  /** Process p publishes a claim under an unused name and lists the competitors. */
  lemma {:induction false} Arrive(s: System, p: nat, op: string, id: string, kind: OperationKind, base: string)
      returns (t: System)
    requires Reachable(s) && p !in s.procs && Name(base, false) !in s.root && id !in s.known && base !in s.bound
    ensures t.known == s.known + {id} && t.bound == s.bound[base := id]
    ensures Reachable(t) && SameHost(s, t) && t.quarantine == s.quarantine && t.ready == s.ready
    ensures t.root == s.root[Name(base, false) := FreshClaim(op, id, kind, s.clock)]
    ensures t.procs == s.procs[p := Proc(op, id, Name(base, false), Scanning(s.root.Keys))]
  {
    t := Extend(s, Start(p, op, id, kind));
    t := Extend(t, Publish(p, base));
    t := Extend(t, Glob(p));
    assert t.root.Keys - {Name(base, false)} == s.root.Keys;
  }

  /** A process with nothing left to look at, alone in the root, becomes owner. */
  lemma {:induction false} TakeOver(s: System, p: nat) returns (t: System)
    requires Reachable(s) && p in s.procs && s.procs[p].stage == Scanning({})
    requires s.root.Keys == {s.procs[p].name} && !s.foreign && SameOwner(s, p)
    ensures Reachable(t) && SameHost(s, t) && NothingDrawn(s, t) && t.quarantine == s.quarantine && t.root == s.root
    ensures t.procs == s.procs[p := s.procs[p].(stage := Owning)] && t.ready == s.ready + {s.procs[p].identity}
  {
    t := Extend(s, FinalScan(p));
    t := Extend(t, Ready(p));
  }

  ghost predicate Lapsed(c: Claim, now: int) {
    c.state == Live && Readable(c) && Stale(c, now)
  }

  /** A lapsed live claim is observed and accepted whatever the probes say. */
  lemma {:induction false} ChooseLapsed(s: System, p: nat, n: Name, probes: Probes) returns (t: System)
    requires Reachable(s) && p in s.procs && s.procs[p].stage == Scanning({n}) && !s.foreign
    requires n in s.root && Lapsed(s.root[n], s.clock)
    ensures Reachable(t) && t == Move(s, p, Chosen({}, n, s.root[n], s.clock, probes))
  {
    t := Extend(s, Observe(p, n, probes));
    assert s.procs[p].stage.todo - {n} == {};
  }

  /** A held live claim is deleted when it is unchanged, and given back otherwise. */
  lemma {:induction false} RecheckLive(s: System, p: nat, probes: Probes) returns (t: System)
    requires Reachable(s) && p in s.procs && s.procs[p].stage.Holding? && p in s.quarantine
    requires s.procs[p].stage.seen.state == Live
    ensures Reachable(t) && NothingDrawn(s, t)
    ensures var st := s.procs[p].stage;
      if s.quarantine[p] == st.seen then t == Move(s, p, Cleared(st.todo, st.target, st.seen, st.at, st.before, probes))
      else s.quarantine[p].heartbeat != st.seen.heartbeat ==> t == Move(s, p, Restoring(st.target))
  {
    t := Extend(s, Recheck(p, probes));
  }

  /** A lapsed live claim is taken out of the lock root and deleted. */
  lemma {:induction false} SweepLapsed(s: System, p: nat, n: Name, probes: Probes) returns (t: System)
    requires Reachable(s) && p in s.procs && s.procs[p].stage == Scanning({n}) && !s.foreign && p !in s.quarantine
    requires n in s.root && Lapsed(s.root[n], s.clock)
    ensures Reachable(t) && SameHost(s, t) && NothingDrawn(s, t)
    ensures t.ready == s.ready && t.root == s.root - {n} && t.quarantine == s.quarantine
    ensures t.procs == s.procs[p := s.procs[p].(stage := Scanning({}))]
  {
    t := ChooseLapsed(s, p, n, probes);
    t := Extend(t, Quarantine(p));
    t := RecheckLive(t, p, probes);
    t := Extend(t, Discard(p));
  }

  /** The owner renews its heartbeat between the classification of its lapsed claim
      and the rename; the process that holds the claim will give it back. */
  lemma {:induction false} HoldRenewed(s: System, p: nat, n: Name, probes: Probes) returns (t: System)
    requires Reachable(s) && p in s.procs && s.procs[p].stage == Scanning({n}) && !s.foreign
    requires n in s.root && Lapsed(s.root[n], s.clock)
    ensures Reachable(t) && SameHost(s, t) && NothingDrawn(s, t) && t.ready == s.ready && t.root == s.root - {n}
    ensures t.procs == s.procs[p := s.procs[p].(stage := Restoring(n))]
    ensures t.quarantine == s.quarantine[p := s.root[n].(heartbeat := Some(s.clock))]
  {
    t := ChooseLapsed(s, p, n, probes);
    t := Extend(t, Write(n, s.root[n].(heartbeat := Some(s.clock))));
    t := Extend(t, Quarantine(p));
    t := RecheckLive(t, p, probes);
  }

  /** The second process takes the first owner's claim aside and is delayed. */
  lemma {:induction false} DelayedWhileHolding(s: System, op: string, id1: string, kind: OperationKind, n0: Name, b1: string, probes: Probes)
      returns (t: System)
    requires Reachable(s) && s.procs.Keys == {0} && !s.foreign && s.quarantine == map[] && s.clock == 31
    requires s.root.Keys == {n0} && Lapsed(s.root[n0], 31) && n0 != Name(b1, false) && id1 !in s.known && b1 !in s.bound
    ensures Reachable(t) && t.clock == 62 && !t.foreign && t.ready == s.ready
    ensures t.known == s.known + {id1} && t.bound == s.bound[b1 := id1] && t.procs.Keys == {0, 1}
    ensures t.root == map[Name(b1, false) := FreshClaim(op, id1, kind, 31)]
    ensures t.procs[1].stage == Restoring(n0) && t.quarantine.Keys == {1} && t.quarantine[1].identity == s.root[n0].identity
  {
    t := Arrive(s, 1, op, id1, kind, b1);
    t := HoldRenewed(t, 1, n0, probes);
    t := Extend(t, Tick(62));
  }

  /** The delayed process holds the first owner's claim while a third becomes owner. */
  lemma {:induction false} OvertakenWhileHolding(s: System, op: string, id1: string, id2: string, kind: OperationKind, n0: Name, b1: string, b2: string, probes: Probes)
      returns (t: System)
    requires Reachable(s) && s.procs.Keys == {0} && !s.foreign && s.quarantine == map[] && s.clock == 31
    requires s.root.Keys == {n0} && Lapsed(s.root[n0], 31) && n0 != Name(b1, false) && n0 != Name(b2, false) && b1 != b2
    requires OperationToken(op) && Hex32(id1)
    requires id1 !in s.known && id2 !in s.known && id1 != id2 && b1 !in s.bound && b2 !in s.bound
    ensures Reachable(t) && t.root.Keys == {Name(b2, false)} && t.root[Name(b2, false)].identity == id2
    ensures t.ready == s.ready + {id2}
    ensures 1 in t.procs && t.procs[1].stage == Restoring(n0)
    ensures 1 in t.quarantine && t.quarantine[1].identity == s.root[n0].identity
  {
    var n1, n2 := Name(b1, false), Name(b2, false);
    t := DelayedWhileHolding(s, op, id1, kind, n0, b1, probes);
    t := Arrive(t, 2, op, id2, kind, b2);
    t := SweepLapsed(t, 2, n1, probes);
    assert t.root == map[n2 := FreshClaim(op, id2, kind, 62)];
    t := TakeOver(t, 2);
  }

  /** Once a contender's claim is taken the property can fail, with all names and
      identities fresh.  An owner's heartbeat lapses; a second
      process takes its claim aside, finds that the owner has just renewed it, and
      is then delayed past its own heartbeat; a third removes the delayed process's
      claim and becomes owner; the second puts the first owner's claim back. */
  lemma {:induction false} LateContenderBreaksExclusion(
      op: string, id0: string, id1: string, id2: string, kind: OperationKind, b0: string, b1: string, b2: string, probes: Probes)
      returns (t: System)
    requires OperationToken(op) && Hex32(id0) && Hex32(id1) && Hex32(id2)
    requires id0 != id1 && id1 != id2 && id0 != id2 && b0 != b1 && b1 != b2 && b0 != b2
    ensures HasFreshRun(t)
    ensures exists n, m | n in t.root && m in t.root && n != m ::
      t.root[n].identity in t.ready && t.root[m].identity in t.ready
  {
    var s := System(0, map[], false, map[], map[], [], map[], {}, {}, "", {});
    assert Initial(s);
    assert Reachable(s);
    var n0, n2 := Name(b0, false), Name(b2, false);
    t := Arrive(s, 0, op, id0, kind, b0);
    assert t.root == map[n0 := FreshClaim(op, id0, kind, 0)];
    t := TakeOver(t, 0);
    t := Extend(t, Tick(31));
    t := OvertakenWhileHolding(t, op, id1, id2, kind, n0, b1, b2, probes);
    t := Extend(t, Restore(1));
    assert n0 in t.root && n2 in t.root;
    ReachableEndsARun(t);
  }

  ghost predicate EndsRun(s: System, states: seq<System>, labels: seq<Label>) {
    Run(states, labels) && FreshRun(states, labels) && states[|labels|] == s
  }

  ghost predicate HasFreshRun(s: System) {
    exists states, labels :: EndsRun(s, states, labels)
  }

  lemma {:induction false} RunExtends(states: seq<System>, labels: seq<Label>, l: Label, t: System)
    requires Run(states, labels) && FreshRun(states, labels)
    requires Next(states[|labels|], l) == Some(t) && Fresh(states[|labels|], l)
    ensures EndsRun(t, states + [t], labels + [l])
  {
    forall i | 0 <= i < |labels + [l]|
      ensures Next((states + [t])[i], (labels + [l])[i]) == Some((states + [t])[i + 1])
      ensures Fresh((states + [t])[i], (labels + [l])[i])
    {
      if i < |labels| { assert (labels + [l])[i] == labels[i]; }
    }
  }

  lemma {:induction false} RunsStartAnywhere(s: System)
    requires Initial(s)
    ensures HasFreshRun(s)
  {
    assert EndsRun(s, [s], []);
  }

  lemma {:induction false} RunsGoOn(s: System, l: Label)
    requires HasFreshRun(s) && Fresh(s, l) && Next(s, l).Some?
    ensures HasFreshRun(Next(s, l).value)
  {
    var states, labels :| EndsRun(s, states, labels);
    RunExtends(states, labels, l, Next(s, l).value);
  }

  /** Two ready owners' claims in the root at the end of any run with fresh names
      mean that a contender's claim was taken on the way. */
  lemma {:induction false} TwoOwnersMeanTaken(states: seq<System>, labels: seq<Label>, n: Name, m: Name) returns (i: nat)
    requires Run(states, labels) && FreshRun(states, labels)
    requires var t := states[|labels|];
      n in t.root && m in t.root && n != m && t.root[n].identity in t.ready && t.root[m].identity in t.ready
    ensures i < |labels| && TakesContender(states[i], labels[i])
  {
    if forall k | 0 <= k < |labels| :: !TakesContender(states[k], labels[k]) {
      forall k | 0 <= k < |labels| ensures Assumed(states[k], labels[k]) { assert Fresh(states[k], labels[k]); }
      MutualExclusion(states, labels, |labels|, n, m);
      assert false;
    }
    i :| 0 <= i < |labels| && TakesContender(states[i], labels[i]);
  }

  /** Reachable states are the ends of runs. */
  lemma {:induction false} ReachableEndsARun(s: System)
    requires Reachable(s)
    ensures HasFreshRun(s)
  {
    var ends := iset t: System | HasFreshRun(t);
    assert Closed(ends) by {
      forall t: System | Initial(t) ensures t in ends {
        RunsStartAnywhere(t);
      }
      forall t, l | t in ends && Fresh(t, l) && Next(t, l).Some? ensures Next(t, l).value in ends {
        RunsGoOn(t, l);
      }
    }
  }
}
