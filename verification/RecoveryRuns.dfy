/** Runs of the engine in which a recovery that ends loses content: another program's edit, or the original. */
module RecoveryRuns {
  import opened Basics
  import opened JournalModel
  import opened RecoveryOrder
  import opened Transaction
  import opened TransactionRuns
  import opened PendingRecovery
  import opened UndoModel

  /** A transaction of one change, applied without disturbance: it awaits verification. */
  method ApplyOne(disk: Disk, change: Change) returns (dir: TransactionDir)
    requires disk.Valid() && Before(disk.files, change)
    modifies disk
    ensures disk.Valid() && fresh(dir) && dir.Valid() && dir.plan == [change] && PlannedOn(disk, dir)
    ensures old(disk.planned) <= disk.planned && disk.start == old(disk.start)
    ensures dir.At(AwaitingVerification) && !dir.temporary && Held(dir.plan, dir.Kept(), disk.files)
    ensures disk.files == old(disk.files)[change.path := change.candidate]
  {
    disk.Boot(Quiet(18));
    assert AllBefore(disk.files, [change]);
    ghost var files := disk.files;
    var o, applied := ApplyChanges(disk, [change]);
    dir := applied;
    CalmStays([change], files, disk.files, disk.script);
    assert AllInstalled(disk.files, dir.plan) && dir.plan[0] == change;
    forall p ensures Get(disk.files, p) == Get(files[change.path := change.candidate], p) {
      if p != change.path {
        assert !HasPath(dir.plan, p);
      }
    }
    SameFiles(disk.files, files[change.path := change.candidate]);
  }

  /** Another program's edits, between the look at the file and the rename over it. */
  function Between(edits: Edits): (script: seq<Event>)
    ensures |script| == 13 && Faultless(script, 0) && script[4].edits == edits
    ensures forall k :: 0 <= k < |script| && k != 4 ==> script[k].edits == map[]
  {
    Quiet(4) + [Event(edits, false)] + Quiet(8)
  }

  lemma FallsBetween(disk: Disk, dir: TransactionDir, change: Change, edits: Edits)
    requires disk.clock == 0 && disk.script == Between(edits)
    requires dir.plan == [change] && Held(dir.plan, dir.Kept(), disk.files)
    requires Replaced(disk.files, change) && change.previous.Some?
    ensures Overtaken(disk, dir, 0, 2, 9)
  {
    assert HeldAt(dir.plan, dir.Kept(), disk.files, 0);
  }

  /** A recovery during which other programs edit files, the recovered one among them, after it was examined
      and before it is replaced: it ends well, and of that file they have changed nothing. */
  method ForeignEditIsLost(disk: Disk, change: Change, edits: Edits) returns (dir: TransactionDir)
    requires disk.Valid() && Before(disk.files, change)
    requires change.previous.Some? && change.previous.value != change.candidate
    modifies disk
    ensures disk.Valid() && fresh(dir) && dir.Valid() && dir.At(Recovered) && dir.plan == [change]
    ensures disk.script == Between(edits) && 4 < disk.clock
    ensures Get(disk.files, change.path) == change.previous
  {
    dir := ApplyOne(disk, change);
    disk.Boot(Between(edits));
    FallsBetween(disk, dir, change, edits);
    hide Held, Overtaken, DriftOutside, NoneReplaced, Restored;
    var o := RecoverOne(disk, dir);
  }

  /** A recovery that stops after its first journal write. */
  method BeginRecovery(disk: Disk, dir: TransactionDir)
    requires disk.Valid() && dir.Valid() && dir.At(AwaitingVerification) && !dir.temporary
    requires Held(dir.plan, dir.Kept(), disk.files)
    modifies disk, dir`manifest, dir`temporary, dir`history
    ensures disk.Valid() && dir.Valid() && dir.At(Recovering) && !dir.temporary
    ensures disk.files == old(disk.files) && disk.planned == old(disk.planned) && disk.start == old(disk.start)
    ensures Held(dir.plan, dir.Kept(), disk.files)
  {
    disk.Boot(Quiet(2));
    var o, m := BeginUndo(disk, dir, dir.manifest.value, Recovering);
  }

  /** A journal that is being recovered is recoverable also where its target has its earlier content. */
  lemma HeldBelow(change: Change, shelf: Shelf, files: Files, below: Files)
    requires Held([change], shelf, files) && shelf.In({Recovering}) && shelf.restoring == map[] && Before(below, change)
    ensures Held([change], shelf, below)
  {
    assert HeldAt([change], shelf, files, 0);
  }

  /** Two transactions on one file, the second back to the original content; the recovery of the first had
      begun before the second. */
  method ThereAndBack() returns (disk: Disk, first: TransactionDir, second: TransactionDir)
    ensures fresh(disk) && fresh(first) && fresh(second) && Sound(disk, [first, second])
    ensures first.plan == [Change("f", Some("A"), "B")] && second.plan == [Change("f", Some("B"), "A")]
    ensures disk.start == map["f" := "A"] && disk.files == map["f" := "A"]
    ensures Pending(first) && Pending(second) && !first.temporary && !second.temporary
    ensures Held(first.plan, first.Kept(), disk.files) && Held(second.plan, second.Kept(), disk.files)
  {
    disk := new Disk(map["f" := "A"]);
    first := ApplyOne(disk, Change("f", Some("A"), "B"));
    BeginRecovery(disk, first);
    ghost var files := disk.files;
    second := ApplyOne(disk, Change("f", Some("B"), "A"));
    HeldBelow(Change("f", Some("A"), "B"), first.Kept(), files, disk.files);
  }

  lemma TwoAreReady(files: Files, first: Change, second: Change, a: Shelf, b: Shelf)
    requires Held([first], a, files) && Held([second], b, files) && Before(files, first)
    ensures Ready(files, [[first], [second]], [a, b], [true, true])
    ensures RestoredAll(files, [[first], [second]], [true, true], 2) == Restored(files, [second])
  {
    var plans := [[first], [second]];
    assert RestoredAll(files, plans, [true, true], 0) == files;
    assert Restored(files, [first]) == files by {
      RestoredAt(files, [first]);
      forall p ensures Get(Restored(files, [first]), p) == Get(files, p) {
        if p == first.path {
          assert Get(Restored(files, [first]), [first][0].path) == RestoredContent(files, [first][0]);
        } else {
          assert !HasPath([first], p);
        }
      }
      SameFiles(Restored(files, [first]), files);
    }
    assert RestoredAll(files, plans, [true, true], 1) == files;
  }

  lemma RestoredOne(files: Files, change: Change)
    requires Replaced(files, change) && change.previous.Some?
    ensures Restored(files, [change]) == files[change.path := change.previous.value]
  {
    assert [change][..0] == [];
    assert Restored(files, []) == files;
  }

  lemma TheTwo(first: TransactionDir, second: TransactionDir, a: Change, b: Change)
    requires first.plan == [a] && second.plan == [b] && Pending(first) && Pending(second)
    ensures var dirs := [first, second];
      && PlansOf(dirs) == [[a], [b]] && PendingAmong(dirs) == [true, true]
      && KeptBy(dirs) == [first.Kept(), second.Kept()] && Budget(PlansOf(dirs), 0) == 22
  {
    var dirs := [first, second];
    assert PlansOf(dirs) == [[a], [b]] && PendingAmong(dirs) == [true, true];
    assert KeptBy(dirs) == [first.Kept(), second.Kept()];
    assert Budget([[a], [b]], 2) == 0 && Budget([[a], [b]], 1) == 11;
  }

  /** Two journals that are both recoverable as the files are now, the first having nothing to restore. */
  method RecoverTwo(disk: Disk, first: TransactionDir, second: TransactionDir, ghost a: Change, ghost b: Change)
    requires Sound(disk, [first, second]) && first.plan == [a] && second.plan == [b]
    requires Pending(first) && Pending(second) && !first.temporary && !second.temporary
    requires Held([a], first.Kept(), disk.files) && Held([b], second.Kept(), disk.files)
    requires Before(disk.files, a) && Replaced(disk.files, b) && b.previous.Some?
    modifies disk, first, second
    ensures Sound(disk, [first, second]) && !Pending(first) && !Pending(second) && disk.start == old(disk.start)
    ensures disk.files == old(disk.files)[b.path := b.previous.value]
  {
    var dirs := [first, second];
    assert dirs[0].Valid() && dirs[1].Valid();
    hide Held, Calm, EachCanUndo, GivesBack;
    disk.Boot(Quiet(22));
    TwoAreReady(disk.files, a, b, first.Kept(), second.Kept());
    ReadyCanUndo(disk.files, [[a], [b]], [first.Kept(), second.Kept()], [true, true]);
    RestoredOne(disk.files, b);
    TheTwo(first, second, a, b);
    hide PlansOf, PendingAmong, KeptBy, Budget;
    var o := RecoverPending(disk, dirs);
    assert !Pending(dirs[0]) && !Pending(dirs[1]);
  }

  /** Recovered oldest first the call ends without an error, and the original content is gone. */
  method OldestFirstCanLose() returns (disk: Disk, first: TransactionDir, second: TransactionDir)
    ensures Sound(disk, [first, second]) && !Pending(first) && !Pending(second)
    ensures first.plan == [Change("f", Some("A"), "B")] && second.plan == [Change("f", Some("B"), "A")]
    ensures disk.start == map["f" := "A"] && disk.files == map["f" := "B"]
  {
    disk, first, second := ThereAndBack();
    RecoverTwo(disk, first, second, first.plan[0], second.plan[0]);
  }

  /** An apply that dies right after its first manifest: nothing has been backed up yet. */
  method DieEarly(disk: Disk, change: Change) returns (dir: TransactionDir)
    requires disk.Valid() && Before(disk.files, change)
    modifies disk
    ensures disk.Valid() && fresh(dir) && dir.Valid() && dir.plan == [change] && PlannedOn(disk, dir)
    ensures old(disk.planned) <= disk.planned && disk.start == old(disk.start) && disk.files == old(disk.files)
    ensures dir.At(Preparing) && !dir.temporary && dir.backups == map[] && Held(dir.plan, dir.Kept(), disk.files)
  {
    disk.Boot(Quiet(4));
    assert AllBefore(disk.files, [change]);
    var o, begun := ApplyChanges(disk, [change]);
    dir := begun;
  }

  /** A change whose apply died early is applied again, by a second transaction. */
  method RetryOne(disk: Disk, change: Change) returns (first: TransactionDir, second: TransactionDir)
    requires disk.Valid() && Before(disk.files, change)
    requires change.previous.Some? && change.previous.value != change.candidate
    modifies disk
    ensures fresh(first) && fresh(second) && Sound(disk, [first, second])
    ensures first.plan == [change] && second.plan == [change]
    ensures disk.files == old(disk.files)[change.path := change.candidate]
    ensures Stuck(disk, first) && Pending(second) && !first.temporary && !second.temporary
    ensures Held(first.plan, first.Kept(), old(disk.files)) && Held(second.plan, second.Kept(), disk.files)
  {
    first := DieEarly(disk, change);
    second := ApplyOne(disk, change);
    assert !CanUndo(first.plan[0], first.manifest.value.changes[0], 0, first.backups, disk.files);
  }

  /** One more attempt at such journals. */
  method RecoverAgain(disk: Disk, first: TransactionDir, second: TransactionDir, change: Change, boot: seq<Event>)
    requires Sound(disk, [first, second]) && Stuck(disk, first) && first.plan == [change]
    requires Calm(boot) && first.Valid()
    modifies disk, first, second
    ensures Sound(disk, [first, second]) && first.Valid() && Stuck(disk, first)
    ensures Get(disk.files, change.path) == Get(old(disk.files), change.path)
  {
    var dirs := [first, second];
    disk.Boot(boot);
    assert dirs[0] == first && !CanUndo(change, first.manifest.value.changes[0], 0, first.backups, disk.files);
    hide EachCanUndo, GivesBack, Undoable;
    ghost var files, entries := disk.files, first.manifest.value.changes;
    var o := RecoverPending(disk, dirs);
    assert dirs[0].Valid() && first.plan[0] == change;
    StuckTarget(first.plan, entries, first.manifest.value.changes, first.backups, files, disk.files, 0);
  }

  /** Nowhere do the two clash, yet the recovery of the first, which comes first in the listing, raises
      whenever it is tried without interference, and the original content does not come back. */
  method RetryCannotBeRecovered(disk: Disk, change: Change, boots: seq<seq<Event>>)
    returns (first: TransactionDir, second: TransactionDir)
    requires disk.Valid() && Before(disk.files, change)
    requires change.previous.Some? && change.previous.value != change.candidate
    requires forall k :: 0 <= k < |boots| ==> Calm(boots[k])
    modifies disk
    ensures Sound(disk, [first, second]) && Pending(first) && first.plan == [change] && second.plan == [change]
    ensures Get(disk.files, change.path) == Some(change.candidate)
    ensures var before, after := old(disk.files), old(disk.files)[change.path := change.candidate];
      NoClash(before, before, after, [change])
  {
    first, second := RetryOne(disk, change);
    assert [first, second][0].Valid();
    for k := 0 to |boots|
      invariant Sound(disk, [first, second]) && first.Valid() && Stuck(disk, first)
      invariant Get(disk.files, change.path) == Some(change.candidate)
    {
      RecoverAgain(disk, first, second, change, boots[k]);
    }
  }
}
