/**
The self-update transaction: an install receipt and an executable that are
replaced together, and the recovery that runs before every update.  Any file
operation may fail, and the process may die before any of them.
*/
module SelfUpdate {
  import opened Options

  /** A receipt file: a readable receipt, with every check but the version's
      folded into `valid`, or something that is not a receipt. */
  datatype Content = Receipt(version: string, valid: bool) | Garbage

  datatype Disk = Disk(live: Option<Content>, previous: Option<Content>, staged: Option<Content>, binary: string)

  /** A receipt that passes validation for a program of this version. */
  predicate Matches(file: Option<Content>, version: string) {
    file == Some(Receipt(version, true))
  }

  /** What every moment of every update keeps: without a backup the live receipt
      describes the executable; with one, the backup or the live receipt does. */
  predicate Consistent(d: Disk) {
    if d.previous.None? then Matches(d.live, d.binary)
    else Matches(d.previous, d.binary) || (Matches(d.live, d.binary) && d.previous.value.Receipt?)
  }

  /** One receipt, which describes the executable, and nothing left over. */
  predicate Clean(d: Disk) {
    Matches(d.live, d.binary) && d.previous.None? && d.staged.None?
  }

  // ------------------------------------------------------------------ recovery

  datatype Verdict = Unneeded | Commit | RollBack | Refuse

  /** What recovery decides from the receipts, run by a program of this version. */
  function Decide(d: Disk, version: string): Verdict {
    if d.previous.None? then Unneeded
    else if d.previous.value.Garbage? then Refuse
    else if Matches(d.live, version) then Commit
    else if Matches(d.previous, version) then RollBack
    else Refuse
  }

  /** The disk after an undisturbed recovery. */
  function Recovered(d: Disk, version: string): Disk {
    match Decide(d, version)
    case Unneeded => d.(staged := None)
    case Commit => d.(previous := None, staged := None)
    case RollBack => d.(live := d.previous, previous := None, staged := None)
    case Refuse => d
  }

  /** The installed program always recovers, and to a clean installation. */
  lemma {:induction false} InstalledProgramRecovers(d: Disk)
    requires Consistent(d)
    ensures Decide(d, d.binary) != Refuse && Clean(Recovered(d, d.binary))
    ensures Recovered(d, d.binary) == Disk(Some(Receipt(d.binary, true)), None, None, d.binary)
  {
  }

  /** Recovery by another version than the installed one keeps the installation
      consistent exactly when it has nothing to decide. */
  lemma {:induction false} StaleProgramRecovers(d: Disk, version: string)
    requires Consistent(d) && version != d.binary
    ensures Consistent(Recovered(d, version)) <==> Decide(d, version) == Unneeded || Decide(d, version) == Refuse
    ensures Decide(d, version) == Commit || Decide(d, version) == RollBack <==>
      d.previous.Some? && d.previous.value.Receipt? && (Matches(d.live, version) || Matches(d.previous, version))
  {
    assert Decide(d, version) == Commit ==> Matches(Recovered(d, version).live, version);
  }

  /** What an update leaves when its backup could not be removed; a program of
      the older version that recovers from it puts back a receipt that is wrong. */
  function BackupLeft(from: string, to: string): Disk {
    Disk(Some(Receipt(to, true)), Some(Receipt(from, true)), None, to)
  }

  lemma {:induction false} StaleRecoveryCanMislabel(from: string, to: string)
    ensures Consistent(BackupLeft(from, to))
    ensures !Consistent(Recovered(BackupLeft(from, to), from)) <==> from != to
  {
    var after := Recovered(BackupLeft(from, to), from);
    assert from != to ==> after.live == Some(Receipt(from, true)) && after.previous.None?;
  }

  // ------------------------------------------------------------ the file system

  /** How one file operation turns out. */
  datatype Fate = Works | Fails | Dies

  datatype Ended = Done | Error | Dead

  class Installation {
    var live: Option<Content>
    var previous: Option<Content>
    var staged: Option<Content>
    var binary: string
    var operations: nat
    const fate: nat -> Fate

    constructor (d: Disk, fate: nat -> Fate)
      ensures Now() == d && this.fate == fate && operations == 0
    {
      live, previous, staged, binary := d.live, d.previous, d.staged, d.binary;
      operations := 0;
      this.fate := fate;
    }

    function Now(): Disk
      reads this
    {
      Disk(live, previous, staged, binary)
    }

    /** No operation from this one on fails or is cut short. */
    ghost predicate Undisturbed(first: nat) {
      forall k :: k >= first ==> fate(k) == Works
    }

    /** These many operations, from this one on, neither fail nor are cut short. */
    ghost predicate AllWork(first: nat, count: nat) {
      forall k :: first <= k < first + count ==> fate(k) == Works
    }

    /** The fate of the next operation. */
    method Next() returns (f: Fate)
      modifies this`operations
      ensures operations == old(operations) + 1 && f == fate(old(operations))
    {
      f := fate(operations);
      operations := operations + 1;
    }

    /** Removes the staged receipt; it need not exist. */
    method RemoveStaged() returns (r: Ended)
      modifies this`operations, this`staged
      ensures operations == old(operations) + 1 && (r == Done <==> fate(old(operations)) == Works)
      ensures staged == if r == Done then None else old(staged)
      ensures r == Dead <==> fate(old(operations)) == Dies
    {
      var f := Next();
      if f == Dies { return Dead; }
      if f == Fails { return Error; }
      staged := None;
      r := Done;
    }

    /** Moves the backup over the live receipt. */
    method RestoreBackup() returns (r: Ended)
      requires previous.Some?
      modifies this`operations, this`live, this`previous
      ensures operations == old(operations) + 1 && (r == Done <==> fate(old(operations)) == Works)
      ensures if r == Done then live == old(previous) && previous == None else live == old(live) && previous == old(previous)
      ensures r == Dead <==> fate(old(operations)) == Dies
    {
      var f := Next();
      if f == Dies { return Dead; }
      if f == Fails { return Error; }
      live, previous := previous, None;
      r := Done;
    }

    /** Drops the live receipt and puts the backup in its place. */
    method RollBackReceipt() returns (r: Ended)
      requires previous.Some?
      modifies this`operations, this`live, this`previous
      ensures operations >= old(operations) && (Undisturbed(old(operations)) ==> r == Done)
      ensures r == Done ==> live == old(previous) && previous == None
      ensures r != Done ==> previous == old(previous) && (live == old(live) || live == None)
    {
      var f := Next();
      if f == Dies { return Dead; }
      if f == Fails { return Error; }
      live := None;
      r := RestoreBackup();
    }

    /**
    Finishes or undoes an interrupted update, as a program of this version.
    Completed, it has done exactly what was decided; however it ends, an
    installation that was consistent stays so when the program is the installed one.
    */
    method Recover(version: string) returns (r: Ended)
      modifies this`operations, this`live, this`previous, this`staged
      ensures r == Done ==> Decide(old(Now()), version) != Refuse && Now() == Recovered(old(Now()), version)
      ensures Decide(old(Now()), version) == Refuse ==> r != Done && Now() == old(Now())
      ensures old(Consistent(Now())) && version == old(binary) ==> Consistent(Now())
      ensures binary == old(binary) && operations >= old(operations)
      ensures old(previous).None? ==> Now() == old(Now()).(staged := staged)
      ensures old(previous).None? && r == Done ==> operations == old(operations) + 2
      ensures old(previous).None? && AllWork(old(operations), 2) ==> r == Done
      ensures Undisturbed(old(operations)) && Decide(old(Now()), version) != Refuse ==> r == Done
    {
      var f := Next();
      if f == Dies { return Dead; }
      if f == Fails || (previous.Some? && previous.value.Garbage?) { return Error; }
      if previous.Some? {
        f := Next();
        if f == Dies { return Dead; }
        if f == Fails { return Error; }
        if Matches(live, version) {
          f := Next();
          if f == Dies { return Dead; }
          if f == Fails { return Error; }
          previous := None;
        } else {
          if !Matches(previous, version) { return Error; }
          r := RollBackReceipt();
          if r != Done { return; }
        }
      }
      r := RemoveStaged();
    }

    /** Writes the new receipt beside the live one; the file must not exist yet,
        and dying or failing half way leaves it unreadable. */
    method WriteStaged(receipt: Content) returns (r: Ended)
      modifies this`operations, this`staged
      ensures r == Done ==> old(staged).None? && staged == Some(receipt) && operations == old(operations) + 2
      ensures old(staged).None? && AllWork(old(operations), 2) ==> r == Done
      ensures operations >= old(operations) && (Undisturbed(old(operations)) && old(staged).None? ==> r == Done)
    {
      var f := Next();
      if f == Dies { return Dead; }
      if f == Fails || staged.Some? { return Error; }
      staged := Some(Garbage);
      f := Next();
      if f == Dies { return Dead; }
      if f == Fails { return Error; }
      staged := Some(receipt);
      r := Done;
    }

    /** Keeps the live receipt as a backup and puts the staged one in its place,
        or goes back to the live one as far as the file system allows. */
    method SwapReceipts() returns (r: Ended)
      requires previous.None? && staged.Some?
      modifies this`operations, this`live, this`previous, this`staged
      ensures r == Done ==> old(live).Some? && live == old(staged) && previous == old(live) && staged.None?
      ensures r == Done ==> operations == old(operations) + 2
      ensures operations >= old(operations) && (old(live).Some? && AllWork(old(operations), 2) ==> r == Done)
      ensures old(Matches(live, binary)) ==> Consistent(Now())
    {
      var f := Next();
      if f == Dies { return Dead; }
      if f == Fails || live.None? {
        r := RemoveStaged();
        return if r == Dead then Dead else Error;
      }
      live, previous := None, live;
      f := Next();
      if f == Dies { return Dead; }
      if f == Fails {
        r := RemoveStaged();
        if r == Dead { return; }
        r := RestoreBackup();
        return if r == Dead then Dead else Error;
      }
      live, staged := staged, None;
      r := Done;
    }

    /**
    Replaces receipt and executable after a completed recovery.  However it
    ends, an installation whose receipt was right stays consistent; an error
    leaves the old executable, and success the new one with its own receipt.
    */
    method Replace(version: string) returns (r: Ended)
      requires previous.None?
      modifies this
      ensures old(Matches(live, binary)) ==> Consistent(Now())
      ensures r == Done ==> binary == version && Matches(live, version) && staged.None?
      ensures r == Done ==> operations == old(operations) + 6
      ensures r == Done ==> previous == if fate(old(operations) + 5) == Works then None else old(live)
      ensures old(live).Some? && old(staged).None? && AllWork(old(operations), 5) && fate(old(operations) + 5) != Dies ==> r == Done
      ensures Undisturbed(old(operations)) && old(live).Some? && old(staged).None? ==> r == Done && previous == None
      ensures r == Error ==> binary == old(binary)
      ensures (binary == old(binary) || binary == version) && operations >= old(operations)
    {
      r := WriteStaged(Receipt(version, true));
      if r != Done { return; }
      r := SwapReceipts();
      if r != Done { return; }
      var f := Next();
      if f == Dies { return Dead; }
      if f == Fails {
        r := RollBackReceipt();
        return if r == Dead then Dead else Error;
      }
      binary := version;
      f := Next();
      if f == Dies { return Dead; }
      if f == Works { previous := None; }
      r := Done;
    }

    /**
    One locked section of an updater that runs as `program`: recover, validate,
    replace.  Run by the installed program it keeps the installation consistent
    however it ends; another program changes nothing but leftovers unless an
    interrupted update left a backup.
    */
    method Section(program: string, target: string) returns (r: Ended)
      modifies this
      ensures old(Consistent(Now())) && program == old(binary) ==> Consistent(Now())
      ensures r == Done ==> binary == target && Matches(live, target) && staged.None?
      ensures (binary == old(binary) || binary == target) && operations >= old(operations)
      ensures old(Clean(Now())) && program == old(binary) && r == Done ==>
        operations == old(operations) + 8 && previous == if fate(old(operations) + 7) == Works then None else old(live)
      ensures old(Clean(Now())) && program == old(binary) && AllWork(old(operations), 7) && fate(old(operations) + 7) != Dies ==>
        r == Done
      ensures Undisturbed(old(operations)) && old(Consistent(Now())) && program == old(binary) ==> r == Done && Clean(Now())
      ensures r == Error ==> binary == old(binary)
      ensures old(Consistent(Now())) && program != old(binary) && old(previous).None? ==>
        r != Done && Now() == old(Now()).(staged := staged)
    {
      r := Recover(program);
      if r != Done { return; }
      if !Matches(live, program) { return Error; }
      r := Replace(target);
    }

    /**
    A complete update, and then a complete recovery by a program of the version
    that was replaced, say by an updater that was already running.  The
    installation is wrong afterwards exactly when the update could not remove
    its backup, and that one failure is enough.
    */
    method StaleRecovery(to: string) returns (updated: Ended, recovered: Ended)
      requires Clean(Now()) && to != binary
      modifies this
      ensures updated == Done && recovered == Done ==> (Consistent(Now()) <==> fate(old(operations) + 7) == Works)
      ensures fate(old(operations) + 7) == Fails && (forall k :: k != old(operations) + 7 ==> fate(k) == Works) ==>
        updated == Done && recovered == Done && !Consistent(Now())
    {
      var from := binary;
      recovered := Error;
      updated := Section(from, to);
      if updated == Done {
        assert previous.Some? ==> Now() == BackupLeft(from, to);
        StaleRecoveryCanMislabel(from, to);
        recovered := Recover(from);
      }
    }

    /**
    Any number of updates, each begun by whatever program is installed and each
    cut short anywhere or not at all, then one recovery.  The installation is
    consistent throughout, and the recovery, if it completes, leaves it clean.
    With nothing in the way every update and the recovery complete.
    */
    method Lifetime(targets: seq<string>) returns (r: Ended)
      requires Consistent(Now())
      modifies this
      ensures Consistent(Now())
      ensures r == Done ==> Clean(Now())
      ensures binary == old(binary) || binary in targets
      ensures Undisturbed(old(operations)) ==> r == Done && binary == (if targets == [] then old(binary) else targets[|targets| - 1])
    {
      for i := 0 to |targets|
        invariant Consistent(Now()) && (binary == old(binary) || binary in targets) && operations >= old(operations)
        invariant Undisturbed(old(operations)) ==> binary == (if i == 0 then old(binary) else targets[i - 1])
      {
        var ended := Section(binary, targets[i]);
      }
      InstalledProgramRecovers(Now());
      r := Recover(binary);
    }
  }

  /** Consistency never lets go of both receipts, and what is left can be recovered. */
  lemma {:induction false} ConsistentKeepsAReceipt(d: Disk)
    requires Consistent(d)
    ensures d.live.Some? || d.previous.Some?
    ensures Matches(d.live, d.binary) || Matches(d.previous, d.binary)
  {
  }
}
