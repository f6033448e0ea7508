/** The apply workflow: apply, validate the installed files, then finalize or roll back. */
module ApplyWorkflow {
  import opened JournalModel
  import opened Transaction
  import opened TransactionRuns

  /** What validating the installed files came to. A passed validation may still be one that
      finalizing does not accept. */
  datatype Validation = Passed(acceptable: bool) | NotPassed | Throws

  datatype Result = Committed | RolledBack | Raised | Crashed

  function FromOutcome(o: Outcome, done: Result): Result {
    match o
    case Done => done
    case Raised => Result.Raised
    case Crashed => Result.Crashed
  }

  /** What is reported, if nothing else goes wrong. */
  function Reported(validation: Validation): Result {
    match validation
    case Passed(acceptable) => if acceptable then Result.Committed else Result.RolledBack
    case NotPassed => Result.RolledBack
    case Throws => Result.Raised
  }

  /** Rolls back and reports how that went. */
  method RollBackAs(disk: Disk, dir: TransactionDir, done: Result) returns (r: Result)
    requires disk.Running() && dir.Valid() && PlannedOn(disk, dir) && Pending(dir)
    requires done in {Result.RolledBack, Result.Raised}
    modifies disk`files, disk`clock, disk`died, disk`log
    modifies dir`restoring, dir`manifest, dir`temporary, dir`history, dir`staged
    ensures disk.Valid() && (disk.died <==> r == Result.Crashed)
    ensures dir.Valid() && r != Result.Committed && !dir.At(TxState.Committed)
    ensures r == Result.RolledBack ==> dir.At(TxState.RolledBack) && NoneReplaced(disk.files, dir.plan, 0, disk.script)
    ensures DriftOutside(dir.plan, old(disk.files), disk.files, disk.script)
    ensures Calm(disk.script) && old(Held(dir.plan, dir.Kept(), disk.files)) ==>
      && Held(dir.plan, dir.Kept(), disk.files)
      && (old(Runs(disk, 7 * |dir.plan| + 4)) && !old(dir.temporary) ==> r == done && dir.At(TxState.RolledBack))
  {
    var o := Rollback(disk, dir);
    r := FromOutcome(o, done);
  }

  /** Decides over an apply that awaits verification. */
  method Conclude(disk: Disk, dir: TransactionDir, validation: Validation) returns (r: Result)
    requires disk.Running() && dir.Valid() && PlannedOn(disk, dir) && dir.At(AwaitingVerification)
    modifies disk`files, disk`clock, disk`died, disk`log
    modifies dir`restoring, dir`manifest, dir`temporary, dir`history, dir`staged
    ensures disk.Valid() && dir.Valid() && (disk.died <==> r == Result.Crashed)
    ensures r == Result.Committed <==> dir.At(TxState.Committed)
    ensures r == Result.Committed ==>
      validation == Passed(true) && InstalledIfUntouched(disk.files, dir.plan, |dir.plan|, disk.script)
    ensures r == Result.RolledBack ==> dir.At(TxState.RolledBack) && NoneReplaced(disk.files, dir.plan, 0, disk.script)
    ensures DriftOutside(dir.plan, old(disk.files), disk.files, disk.script)
    ensures Calm(disk.script) && old(Held(dir.plan, dir.Kept(), disk.files)) ==>
      && Held(dir.plan, dir.Kept(), disk.files)
      && (old(Runs(disk, 8 * |dir.plan| + 7)) && !old(dir.temporary) ==>
        && (r == Result.Committed || dir.At(TxState.RolledBack))
        && r == Reported(validation))
  {
    match validation {
      case Throws =>
        r := RollBackAs(disk, dir, Result.Raised);
      case NotPassed =>
        r := RollBackAs(disk, dir, Result.RolledBack);
      case Passed(acceptable) =>
        var o := Finalize(disk, dir, acceptable);
        if o == Outcome.Raised {
          r := RollBackAs(disk, dir, Result.RolledBack);
        } else {
          r := FromOutcome(o, Result.Committed);
        }
    }
  }

  /** The whole workflow. If it reports a commit, all candidates are installed; if it reports a rollback,
      none is; with nobody interfering the root is then exactly as before. */
  method Execute(disk: Disk, changes: seq<Change>, validation: Validation)
    returns (r: Result, dir: TransactionDir?)
    requires disk.Running() && DistinctPaths(changes)
    modifies disk`files, disk`clock, disk`died, disk`log, disk`planned
    ensures disk.Valid() && (disk.died <==> r == Result.Crashed)
    ensures (dir != null ==> fresh(dir) && dir.Valid() && dir.plan == changes)
    ensures r == Result.Committed <==> dir != null && dir.At(TxState.Committed)
    ensures r == Result.Committed ==>
      validation == Passed(true) && InstalledIfUntouched(disk.files, changes, |changes|, disk.script)
    ensures r == Result.RolledBack ==>
      dir != null && dir.At(TxState.RolledBack) && NoneReplaced(disk.files, changes, 0, disk.script)
    ensures Calm(disk.script) ==> SameOutside(changes, old(disk.files), disk.files)
    ensures Calm(disk.script) && (dir == null || dir.At(TxState.RolledBack)) ==> disk.files == old(disk.files)
    ensures Calm(disk.script) && AllBefore(old(disk.files), changes) && old(Runs(disk, 19 * |changes| + 14)) ==>
      && dir != null && (r == Result.Committed || dir.At(TxState.RolledBack))
      && r == Reported(validation)
  {
    var o;
    o, dir := ApplyChanges(disk, changes);
    r := FromOutcome(o, Result.Raised);
    if o == Done {
      r := Conclude(disk, dir, validation);
    }
    if Calm(disk.script) {
      CalmStays(changes, old(disk.files), disk.files, disk.script);
      if dir != null && dir.At(TxState.RolledBack) {
        GoneMeansUndone(dir, old(disk.files), disk.files);
      }
    }
  }
}
