/** Whole runs of the transaction engine: crashes, reboots, several journals, other programs. */
module TransactionRuns {
  import opened Basics
  import opened JournalModel
  import opened Transaction
  import opened UndoModel

  lemma BackToStart(plan: seq<Change>, before: Files, after: Files)
    requires AllBefore(before, plan) && AllBefore(after, plan) && SameOutside(plan, before, after)
    ensures after == before
  {
    forall p ensures Get(after, p) == Get(before, p) {
      if HasPath(plan, p) {
        var i :| 0 <= i < |plan| && plan[i].path == p;
        assert Before(before, plan[i]) && Before(after, plan[i]);
      }
    }
    SameFiles(after, before);
  }

  /** The transaction is over and left no trace. */
  ghost predicate Gone(dir: TransactionDir)
    reads dir
  {
    !Pending(dir) && !dir.At(Committed) && dir.Kept().Empty()
  }

  lemma GoneMeansUndone(dir: TransactionDir, before: Files, after: Files)
    requires dir.Valid() && Held(dir.plan, dir.Kept(), after) && !Pending(dir) && !dir.At(Committed)
    requires AllBefore(before, dir.plan) && SameOutside(dir.plan, before, after)
    ensures after == before && Gone(dir)
  {
    if dir.manifest.None? {
      forall i | 0 <= i < |dir.plan| ensures Before(after, dir.plan[i]) {
        assert HeldAt(dir.plan, dir.Kept(), after, i);
      }
    }
    BackToStart(dir.plan, before, after);
  }

  lemma SameOutsideTransitive(plan: seq<Change>, a: Files, b: Files, c: Files)
    requires SameOutside(plan, a, b) && SameOutside(plan, b, c)
    ensures SameOutside(plan, a, c)
  {
  }

  /** A boot in which nothing goes wrong for `steps` operations. */
  predicate Smooth(boot: seq<Event>, steps: nat) {
    Faultless(boot, 0) && |boot| >= steps
  }

  predicate EndsSmoothly(boots: seq<seq<Event>>, steps: nat) {
    |boots| >= 2 && Smooth(boots[|boots| - 2], steps) && Smooth(boots[|boots| - 1], steps)
  }

  /** An apply that may fail or die anywhere, then any number of recovery attempts that may fail or
      die anywhere. Whatever happens the transaction stays recoverable; once an attempt finds it over,
      every file is back; and two smooth attempts in a row are always enough. */
  method CrashAndRecover(disk: Disk, changes: seq<Change>, boots: seq<seq<Event>>) returns (dir: TransactionDir?)
    requires disk.Running() && DistinctPaths(changes)
    requires Calm(disk.script) && forall k :: 0 <= k < |boots| ==> Calm(boots[k])
    modifies disk
    ensures disk.Valid()
    ensures dir == null ==> disk.files == old(disk.files)
    ensures dir != null ==>
      && dir.Valid() && dir.plan == changes
      && Held(changes, dir.Kept(), disk.files) && SameOutside(changes, old(disk.files), disk.files)
      && (Pending(dir) || (disk.files == old(disk.files) && Gone(dir)))
    ensures EndsSmoothly(boots, 7 * |changes| + 4) ==> disk.files == old(disk.files) && (dir == null || Gone(dir))
  {
    var o;
    o, dir := ApplyChanges(disk, changes);
    if dir == null { return; }
    CalmStays(changes, old(disk.files), disk.files, disk.script);
    ghost var clear := false;
    for k := 0 to |boots|
      invariant disk.Valid() && dir.Valid() && dir.plan == changes && PlannedOn(disk, dir) && !dir.At(Committed)
      invariant Held(changes, dir.Kept(), disk.files) && SameOutside(changes, old(disk.files), disk.files)
      invariant k > 0 && Smooth(boots[k - 1], 7 * |changes| + 4) ==> !Pending(dir) || !dir.temporary
      invariant EndsSmoothly(boots[..k], 7 * |changes| + 4) ==> !Pending(dir)
    {
      ghost var files := disk.files;
      disk.Boot(boots[k]);
      o := RecoverOne(disk, dir);
      CalmStays(changes, files, disk.files, disk.script);
      SameOutsideTransitive(changes, old(disk.files), files, disk.files);
    }
    assert boots[..|boots|] == boots;
    if !Pending(dir) {
      GoneMeansUndone(dir, old(disk.files), disk.files);
    }
  }

  /** An apply that meets one I/O error, wherever it falls, and nobody interfering: it raises exactly if an
      operation of it failed, and then the root is exactly as before. */
  method OneErrorIsUndone(disk: Disk, changes: seq<Change>) returns (o: Outcome, dir: TransactionDir?)
    requires disk.Running() && DistinctPaths(changes) && AllBefore(disk.files, changes) && Calm(disk.script)
    requires OneFault(disk.script, disk.clock) && |disk.script| >= disk.clock + 20 * |changes| + 14
    modifies disk
    ensures disk.Valid()
    ensures o == if Faulted(disk.script, old(disk.clock), disk.clock) then Raised else Done
    ensures o == Done ==> dir != null && dir.At(AwaitingVerification)
    ensures o == Raised ==> disk.files == old(disk.files) && (dir == null || dir.manifest.None? || dir.At(RolledBack))
  {
    o, dir := ApplyChanges(disk, changes);
    CalmStays(changes, old(disk.files), disk.files, disk.script);
    if o == Raised && dir != null {
      GoneMeansUndone(dir, old(disk.files), disk.files);
    }
  }

  /** This target can be undone: it is as before, or it has the candidate, and what was before is backed up. */
  predicate CanGoBack(change: Change, i: nat, backups: map<nat, Content>, files: Files) {
    var now := Get(files, change.path);
    || now == change.previous
    || (now == Some(change.candidate)
        && (change.previous.Some? ==> i in backups && backups[i] == change.previous.value))
  }

  lemma AllInstalledGoBack(plan: seq<Change>, entries: seq<Entry>, backups: map<nat, Content>, files: Files)
    requires |entries| == |plan| && Stamped(entries, 0, |plan|, Installed)
    ensures forall i :: 0 <= i < |plan| ==>
      (CanUndo(plan[i], entries[i], i, backups, files) <==> CanGoBack(plan[i], i, backups, files))
    ensures CanUndoAll(plan, entries, backups, files) <==>
      forall i :: 0 <= i < |plan| ==> CanGoBack(plan[i], i, backups, files)
  {
    assert forall i :: 0 <= i < |plan| ==> entries[i].status == Installed;
    assert forall i :: 0 <= i < |plan| ==>
      (CanUndo(plan[i], entries[i], i, backups, files) <==> CanGoBack(plan[i], i, backups, files));
  }

  /** What an apply and then these edits make of the files. */
  ghost predicate AppliedAndEdited(before: Files, plan: seq<Change>, edits: Edits, now: Files) {
    && (forall i :: 0 <= i < |plan| && plan[i].path !in edits ==> Get(now, plan[i].path) == Some(plan[i].candidate))
    && (forall p :: !HasPath(plan, p) && p !in edits ==> Get(now, p) == Get(before, p))
    && (forall p <- edits :: Get(now, p) == edits[p])
  }

  /** A boot in which nothing happens beside the engine's own operations. */
  function Quiet(count: nat): (events: seq<Event>)
    ensures |events| == count && Calm(events) && Faultless(events, 0)
  {
    seq(count, i => Event(map[], false))
  }

  /** An apply awaits verification, other programs edit files and damage backups, and then nobody interferes: a
      rollback or a recovery raises exactly if some target has content that nobody knows, or has its candidate
      without a good backup of what was before. Such targets are left alone, and the journal asks for attention.
      Otherwise every target is as before, and nothing else changes. */
  method ApplyEditUndo(disk: Disk, changes: seq<Change>, edits: Edits, backups: map<nat, Content>, rollBack: bool)
    returns (o: Outcome, dir: TransactionDir, ghost edited: Files)
    requires disk.Running() && DistinctPaths(changes) && AllBefore(disk.files, changes)
    modifies disk
    ensures disk.Valid() && dir.Valid() && dir.plan == changes
    ensures AppliedAndEdited(old(disk.files), changes, edits, edited)
    ensures o == if forall i :: 0 <= i < |changes| ==> CanGoBack(changes[i], i, backups, edited) then Done else Raised
    ensures o == Done ==>
      && dir.At(if rollBack then RolledBack else Recovered)
      && AllBefore(disk.files, changes) && SameOutside(changes, edited, disk.files)
    ensures o == Raised ==>
      && dir.At(RecoveryRequired) && SameOutside(changes, edited, disk.files)
      && forall i :: 0 <= i < |changes| && !CanGoBack(changes[i], i, backups, edited) ==>
           Get(disk.files, changes[i].path) == Get(edited, changes[i].path)
  {
    dir := ApplyAndEdit(disk, changes, edits, backups);
    edited := disk.files;
    ghost var entries := dir.manifest.value.changes;
    AllInstalledGoBack(changes, entries, backups, edited);
    hide CanUndoAll, StaysStuckIn, Restored, CanGoBack, AppliedAndEdited, Stamped;
    o := QuietUndo(disk, dir, |changes|, rollBack);
    UndoneOrStuck(changes, entries, dir.manifest, backups, edited, disk.files, o);
  }

  /** A rollback or a recovery that nobody disturbs. */
  method QuietUndo(disk: Disk, dir: TransactionDir, count: nat, rollBack: bool) returns (o: Outcome)
    requires disk.Valid() && dir.Valid() && PlannedOn(disk, dir) && dir.At(AwaitingVerification) && !dir.temporary
    requires count == |dir.plan|
    modifies disk, dir
    ensures disk.Valid() && dir.Valid() && dir.backups == old(dir.backups)
    ensures o == if old(Undoable(dir, disk.files)) then Done else Raised
    ensures o == Done ==>
      dir.At(if rollBack then RolledBack else Recovered) && disk.files == Restored(old(disk.files), dir.plan)
    ensures o == Raised ==> dir.At(RecoveryRequired)
    ensures SameOutside(dir.plan, old(disk.files), disk.files)
    ensures StaysStuckIn(dir.plan, old(dir.manifest.value.changes), dir.manifest, dir.backups, old(disk.files),
      disk.files)
  {
    hide Held, CanUndoAll, StaysStuckIn, Restored, NoneReplaced, Marked, Faulted;
    disk.Boot(Quiet(7 * count + 4));
    if rollBack {
      o := Rollback(disk, dir);
    } else {
      o := RecoverOne(disk, dir);
    }
    CalmStays(dir.plan, old(disk.files), disk.files, disk.script);
  }

  lemma UndoneOrStuck(plan: seq<Change>, entries: seq<Entry>, journal: Option<Manifest>, backups: map<nat, Content>,
      before: Files, after: Files, o: Outcome)
    requires DistinctPaths(plan) && |entries| == |plan| && Stamped(entries, 0, |plan|, Installed)
    requires o == Done ==> after == Restored(before, plan) && CanUndoAll(plan, entries, backups, before)
    requires StaysStuckIn(plan, entries, journal, backups, before, after)
    ensures o == Done ==> AllBefore(after, plan)
    ensures forall i :: 0 <= i < |plan| && !CanGoBack(plan[i], i, backups, before) ==>
      Get(after, plan[i].path) == Get(before, plan[i].path)
  {
    AllInstalledGoBack(plan, entries, backups, before);
    RestoredAt(before, plan);
    if o == Done {
      forall i | 0 <= i < |plan| ensures Before(after, plan[i]) {
        assert CanGoBack(plan[i], i, backups, before);
        assert Get(after, plan[i].path) == RestoredContent(before, plan[i]);
      }
    }
    forall i | 0 <= i < |plan| && !CanGoBack(plan[i], i, backups, before)
      ensures Get(after, plan[i].path) == Get(before, plan[i].path)
    {
      assert !CanUndo(plan[i], entries[i], i, backups, before);
      StuckTarget(plan, entries, journal.value.changes, backups, before, after, i);
    }
  }

  /** The apply, and what happens to the files and the backups after it. */
  method ApplyAndEdit(disk: Disk, changes: seq<Change>, edits: Edits, backups: map<nat, Content>)
    returns (dir: TransactionDir)
    requires disk.Running() && DistinctPaths(changes) && AllBefore(disk.files, changes)
    modifies disk
    ensures disk.Running() && fresh(dir) && dir.Valid() && dir.plan == changes && PlannedOn(disk, dir)
    ensures dir.At(AwaitingVerification) && !dir.temporary && dir.backups == backups
    ensures Stamped(dir.manifest.value.changes, 0, |changes|, Installed)
    ensures AppliedAndEdited(old(disk.files), changes, edits, disk.files)
  {
    disk.Boot(Quiet(11 * |changes| + 7));
    var o, applied := ApplyChanges(disk, changes);
    dir := applied;
    CalmStays(changes, old(disk.files), disk.files, disk.script);
    assert AllInstalled(disk.files, changes);
    ghost var installed := disk.files;
    disk.Boot([Event(edits, false)]);
    o := disk.Tick();
    dir.backups := backups;
    forall i | 0 <= i < |changes| ensures HasPath(changes, changes[i].path) {
    }
  }

  /** Everything a caller can ask for, on the journal opened as number k, and a reboot. */
  datatype Command =
    | ApplyNew(changes: seq<Change>)
    | FinalizeOld(k: nat, verified: bool)
    | RollBackOld(k: nat)
    | RecoverOld(k: nat)
    | Reboot(script: seq<Event>)

  ghost predicate AllSound(disk: Disk, dirs: seq<TransactionDir>)
    reads disk, dirs
  {
    && disk.Valid()
    && (forall i, j :: 0 <= i < j < |dirs| ==> dirs[i] != dirs[j])
    && forall i :: 0 <= i < |dirs| ==> dirs[i].Valid() && PlannedOn(disk, dirs[i])
  }

  /** Any sequence of calls, each of which may be disturbed, refused or cut short anywhere; a machine that
      stopped does nothing until it starts again. The history stays lawful and every journal stays legal. */
  method RunCommands(disk: Disk, commands: seq<Command>) returns (dirs: seq<TransactionDir>)
    requires disk.Valid()
    modifies disk
    ensures AllSound(disk, dirs) && fresh(dirs)
    ensures Lawful(disk.planned, disk.start, disk.log) && disk.files == Replay(disk.start, disk.log)
    ensures disk.start == old(disk.start)
  {
    hide Held, Calm, Faultless, Restored, NoneReplaced, DriftOutside, Undoable, Overtaken, DiesAfter, AllInstalled;
    dirs := [];
    var o;
    for c := 0 to |commands|
      invariant AllSound(disk, dirs) && fresh(dirs) && disk.start == old(disk.start)
    {
      match commands[c] {
        case ApplyNew(changes) =>
          if !disk.died && DistinctPaths(changes) {
            var dir: TransactionDir?;
            o, dir := ApplyChanges(disk, changes);
            if dir != null { dirs := dirs + [dir]; }
          }
        case FinalizeOld(k, verified) =>
          if !disk.died && k < |dirs| { o := Finalize(disk, dirs[k], verified); }
        case RollBackOld(k) =>
          if !disk.died && k < |dirs| { o := Rollback(disk, dirs[k]); }
        case RecoverOld(k) =>
          if !disk.died && k < |dirs| { o := RecoverOne(disk, dirs[k]); }
        case Reboot(script) =>
          disk.Boot(script);
      }
    }
  }
}
