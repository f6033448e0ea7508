/** Recovery of several pending journals in one call, in whatever order the directories are listed. */
module PendingRecovery {
  import opened JournalModel
  import opened RecoveryOrder
  import opened Transaction
  import opened UndoModel

  ghost function PlansOf(dirs: seq<TransactionDir>): (plans: seq<seq<Change>>)
    ensures |plans| == |dirs|
  {
    seq(|dirs|, i requires 0 <= i < |dirs| => dirs[i].plan)
  }

  /** Which of the journals are pending. */
  ghost function PendingAmong(dirs: seq<TransactionDir>): (pending: seq<bool>)
    reads dirs
    ensures |pending| == |dirs|
  {
    seq(|dirs|, i requires 0 <= i < |dirs| reads dirs => Pending(dirs[i]))
  }

  ghost function KeptBy(dirs: seq<TransactionDir>): (shelves: seq<Shelf>)
    reads dirs
    ensures |shelves| == |dirs|
  {
    seq(|dirs|, i requires 0 <= i < |dirs| reads dirs => dirs[i].Kept())
  }

  /** An upper bound for the operations of undisturbed recoveries of the plans from position `from` on. */
  function Budget(plans: seq<seq<Change>>, from: nat): nat
    requires from <= |plans|
    decreases |plans| - from
  {
    if from == |plans| then 0 else 7 * |plans[from]| + 4 + Budget(plans, from + 1)
  }

  ghost predicate Sound(disk: Disk, dirs: seq<TransactionDir>)
    reads disk, dirs
  {
    && disk.Valid()
    && (forall i :: 0 <= i < |dirs| ==> dirs[i].Valid() && PlannedOn(disk, dirs[i]))
    && (forall i, j :: 0 <= i < j < |dirs| ==> dirs[i] != dirs[j])
  }

  /** Nobody interferes, no operation fails, and no journal has a leftover temporary manifest. */
  ghost predicate Undisturbed(disk: Disk, dirs: seq<TransactionDir>)
    reads disk, dirs
  {
    && Calm(disk.script) && Runs(disk, Budget(PlansOf(dirs), 0))
    && (forall i :: 0 <= i < |dirs| ==> !dirs[i].temporary)
  }

  /** The journal is pending, and some entry of it cannot be undone. */
  ghost predicate Stuck(disk: Disk, dir: TransactionDir)
    reads disk, dir
  {
    Pending(dir) && !Undoable(dir, disk.files)
  }

  /** It still is, and the targets of such entries are as they were. */
  twostate predicate StillStuck(disk: Disk, dir: TransactionDir)
    reads disk, dir
  {
    && Stuck(disk, dir) && old(dir.manifest.Some?) && dir.backups == old(dir.backups)
    && StaysStuckIn(dir.plan, old(dir.manifest.value.changes), dir.manifest, dir.backups, old(disk.files), disk.files)
  }

  /** Recovers the journal at one position. */
  method RecoverAt(disk: Disk, dirs: seq<TransactionDir>, i: nat) returns (o: Outcome)
    requires !disk.died && Sound(disk, dirs) && i < |dirs|
    modifies disk`files, disk`clock, disk`died, disk`log
    modifies dirs[i]
    ensures Sound(disk, dirs) && (disk.died <==> o == Crashed)
    ensures o == Done ==> !Pending(dirs[i])
    ensures Calm(disk.script) && o == Done ==>
      && (old(Pending(dirs[i])) ==> old(Undoable(dirs[i], disk.files)))
      && disk.files == if old(Pending(dirs[i])) then Restored(old(disk.files), dirs[i].plan) else old(disk.files)
    ensures old(disk.clock) <= disk.clock
    ensures Calm(disk.script) && old(Runs(disk, 7 * |dirs[i].plan| + 4) && !dirs[i].temporary) ==>
      if old(Pending(dirs[i]) ==> Undoable(dirs[i], disk.files))
      then o == Done && disk.clock <= old(disk.clock) + 7 * |dirs[i].plan| + 4
      else o == Raised
    ensures Calm(disk.script) && old(Stuck(disk, dirs[i])) ==> o != Done && StillStuck(disk, dirs[i])
  {
    ghost var changes := if Pending(dirs[i]) then dirs[i].manifest.value.changes else [];
    ghost var files := disk.files;
    o := RecoverOne(disk, dirs[i]);
    if Calm(disk.script) && old(Stuck(disk, dirs[i])) {
      StuckTogether(dirs[i].plan, changes, dirs[i].manifest, dirs[i].backups, files, disk.files);
    }
  }

  /** The journals before the i-th have been recovered. */
  ghost predicate Went(script: seq<Event>, plans: seq<seq<Change>>, shelves: seq<Shelf>, pending: seq<bool>, was: Files,
      quiet: bool, now: Files, clock: nat, i: nat)
  {
    && |plans| == |shelves| == |pending| && i <= |plans|
    && (Calm(script) ==>
         && now == RestoredAll(was, plans, pending, i)
         && forall j :: 0 <= j < i && pending[j] ==> TurnCanUndo(was, plans, shelves, pending, j))
    && (quiet ==> Calm(script) && Enough(script, clock, Budget(plans, i)))
  }

  lemma NoneYet(script: seq<Event>, plans: seq<seq<Change>>, shelves: seq<Shelf>, pending: seq<bool>, was: Files,
      quiet: bool, clock: nat)
    requires |plans| == |shelves| == |pending|
    requires quiet ==> Calm(script) && Enough(script, clock, Budget(plans, 0))
    ensures Went(script, plans, shelves, pending, was, quiet, was, clock, 0)
  {
  }

  lemma AllWent(script: seq<Event>, plans: seq<seq<Change>>, shelves: seq<Shelf>, pending: seq<bool>, was: Files,
      quiet: bool, now: Files, clock: nat)
    requires Went(script, plans, shelves, pending, was, quiet, now, clock, |plans|)
    ensures Calm(script) ==>
      && now == RestoredAll(was, plans, pending, |plans|) && GivesBack(was, now, plans, pending)
      && EachCanUndo(was, plans, shelves, pending)
    ensures quiet ==> Calm(script)
  {
    ItGivesBack(was, plans, pending);
  }

  /** The next journal. */
  method RecoverNext(disk: Disk, dirs: seq<TransactionDir>, i: nat, ghost plans: seq<seq<Change>>,
      ghost shelves: seq<Shelf>, ghost pending: seq<bool>, ghost was: Files, ghost quiet: bool)
    returns (o: Outcome)
    requires !disk.died && Sound(disk, dirs) && i < |dirs| && plans == PlansOf(dirs)
    requires Went(disk.script, plans, shelves, pending, was, quiet, disk.files, disk.clock, i)
    requires Pending(dirs[i]) == pending[i] && dirs[i].Kept() == shelves[i] && (quiet ==> !dirs[i].temporary)
    modifies disk`files, disk`clock, disk`died, disk`log
    modifies dirs[i]
    ensures Sound(disk, dirs) && (disk.died <==> o == Crashed)
    ensures o == Done ==>
      !Pending(dirs[i]) && Went(disk.script, plans, shelves, pending, was, quiet, disk.files, disk.clock, i + 1)
    ensures o != Done && quiet ==> o == Raised && !EachCanUndo(was, plans, shelves, pending)
    ensures Calm(disk.script) && old(Stuck(disk, dirs[i])) ==> o != Done && StillStuck(disk, dirs[i])
  {
    hide Calm, Held;
    assert pending[i] && Calm(disk.script) ==>
      (Undoable(dirs[i], disk.files) <==> TurnCanUndo(was, plans, shelves, pending, i));
    o := RecoverAt(disk, dirs, i);
  }

  /** Recovers every pending journal; the first failure ends the call. Undisturbed, it ends exactly if each
      journal can be undone when its turn comes, and the result is then the restores one after the other;
      that is the original root whenever overlapping transactions are listed newest first, and all plans'
      earlier content when the plans are disjoint. */
  method RecoverPending(disk: Disk, dirs: seq<TransactionDir>) returns (o: Outcome)
    requires !disk.died && Sound(disk, dirs)
    modifies disk`files, disk`clock, disk`died, disk`log
    modifies dirs
    ensures Sound(disk, dirs) && (disk.died <==> o == Crashed)
    ensures o == Done ==> forall i :: 0 <= i < |dirs| ==> !Pending(dirs[i])
    ensures Calm(disk.script) && o == Done ==>
      && disk.files == RestoredAll(old(disk.files), PlansOf(dirs), old(PendingAmong(dirs)), |dirs|)
      && GivesBack(old(disk.files), disk.files, PlansOf(dirs), old(PendingAmong(dirs)))
      && old(EachCanUndo(disk.files, PlansOf(dirs), KeptBy(dirs), PendingAmong(dirs)))
    ensures Calm(disk.script) && dirs != [] && old(Stuck(disk, dirs[0])) ==> o != Done && StillStuck(disk, dirs[0])
    ensures old(Undisturbed(disk, dirs)) ==>
      o == if old(EachCanUndo(disk.files, PlansOf(dirs), KeptBy(dirs), PendingAmong(dirs))) then Done else Raised
  {
    ghost var was, plans, shelves, pending := disk.files, PlansOf(dirs), KeptBy(dirs), PendingAmong(dirs);
    ghost var quiet := Undisturbed(disk, dirs);
    o := Done;
    NoneYet(disk.script, plans, shelves, pending, was, quiet, disk.clock);
    assert forall i, j :: 0 <= i < j < |dirs| ==> dirs[i] != dirs[j];
    hide Went, EachCanUndo, RestoredAll, GivesBack, Budget, Calm, Enough, Sound, Undoable, StaysStuckIn, StillStuck;
    for i := 0 to |dirs|
      invariant Sound(disk, dirs) && o == Done && !disk.died
      invariant Calm(disk.script) && dirs != [] && old(Stuck(disk, dirs[0])) ==>
        i == 0 && disk.files == was
      invariant forall j :: 0 <= j < i ==> !Pending(dirs[j])
      invariant forall j :: i <= j < |dirs| ==> unchanged(dirs[j])
      invariant Went(disk.script, plans, shelves, pending, was, quiet, disk.files, disk.clock, i)
    {
      assert dirs[i].Kept() == shelves[i];
      o := RecoverNext(disk, dirs, i, plans, shelves, pending, was, quiet);
      if o != Done { return; }
    }
    AllWent(disk.script, plans, shelves, pending, was, quiet, disk.files, disk.clock);
  }

  /** What the restores one after the other come to: the root below every stack that the listing takes off
      newest first, and the planned earlier content wherever disjoint plans are recoverable. */
  ghost predicate GivesBack(before: Files, after: Files, plans: seq<seq<Change>>, pending: seq<bool>)
    requires |plans| == |pending|
  {
    && (forall s: Stack :: IsStack(s, plans, pending) && Top(s) == before && NewestFirst(s, plans, pending) ==>
      after == s.levels[0])
    && (PlansDisjoint(plans) && AllRecoverable(before, plans, pending) ==>
      && (forall k :: 0 <= k < |plans| && pending[k] ==> AllBefore(after, plans[k]))
      && forall p :: (forall k :: 0 <= k < |plans| && pending[k] ==> !HasPath(plans[k], p)) ==>
           Get(after, p) == Get(before, p))
  }

  ghost predicate AllRecoverable(files: Files, plans: seq<seq<Change>>, pending: seq<bool>)
    requires |plans| == |pending|
  {
    forall k, i :: 0 <= k < |plans| && pending[k] && 0 <= i < |plans[k]| ==>
      Before(files, plans[k][i]) || Replaced(files, plans[k][i])
  }

  lemma ItGivesBack(before: Files, plans: seq<seq<Change>>, pending: seq<bool>)
    requires |plans| == |pending|
    ensures GivesBack(before, RestoredAll(before, plans, pending, |plans|), plans, pending)
  {
    forall s: Stack | IsStack(s, plans, pending) && Top(s) == before && NewestFirst(s, plans, pending)
      ensures RestoredAll(before, plans, pending, |plans|) == s.levels[0]
    {
      NewestFirstRestores(s, plans, pending);
    }
    if PlansDisjoint(plans) && AllRecoverable(before, plans, pending) {
      DisjointRestores(before, plans, pending);
    }
  }

  /** A stack of pending journals, listed with the newer of overlapping ones first and each as its
      transaction left it, is taken off in one undisturbed call: it ends, and the original root is back. */
  method RecoverStack(disk: Disk, dirs: seq<TransactionDir>, ghost s: Stack) returns (o: Outcome)
    requires !disk.died && Sound(disk, dirs) && Undisturbed(disk, dirs)
    requires IsStack(s, PlansOf(dirs), PendingAmong(dirs)) && NewestFirst(s, PlansOf(dirs), PendingAmong(dirs))
    requires Top(s) == disk.files
    requires forall i :: 0 <= i < |dirs| && Pending(dirs[i]) ==>
      Held(dirs[i].plan, dirs[i].Kept(), s.levels[s.age[i] + 1])
    modifies disk`files, disk`clock, disk`died, disk`log
    modifies dirs
    ensures Sound(disk, dirs) && o == Done && disk.files == s.levels[0]
    ensures forall i :: 0 <= i < |dirs| ==> !Pending(dirs[i])
  {
    NewestFirstIsReady(s, PlansOf(dirs), KeptBy(dirs), PendingAmong(dirs));
    ReadyCanUndo(disk.files, PlansOf(dirs), KeptBy(dirs), PendingAmong(dirs));
    hide EachCanUndo;
    o := RecoverPending(disk, dirs);
  }

  /** Pending journals with disjoint plans, listed in any order and each recoverable by itself, are all
      recovered in one undisturbed call: it ends, every planned file is as before, and no other file has
      changed. */
  method RecoverDisjoint(disk: Disk, dirs: seq<TransactionDir>) returns (o: Outcome)
    requires !disk.died && Sound(disk, dirs) && Undisturbed(disk, dirs) && PlansDisjoint(PlansOf(dirs))
    requires forall i :: 0 <= i < |dirs| && Pending(dirs[i]) ==> Held(dirs[i].plan, dirs[i].Kept(), disk.files)
    modifies disk`files, disk`clock, disk`died, disk`log
    modifies dirs
    ensures Sound(disk, dirs) && o == Done
    ensures forall i :: 0 <= i < |dirs| ==> !Pending(dirs[i])
    ensures forall i :: 0 <= i < |dirs| && old(Pending(dirs[i])) ==> AllBefore(disk.files, dirs[i].plan)
    ensures forall p :: (forall i :: 0 <= i < |dirs| && old(Pending(dirs[i])) ==> !HasPath(dirs[i].plan, p)) ==>
      Get(disk.files, p) == Get(old(disk.files), p)
  {
    ghost var was, plans, pending := disk.files, PlansOf(dirs), PendingAmong(dirs);
    DisjointIsReady(was, plans, KeptBy(dirs), pending);
    ReadyCanUndo(was, plans, KeptBy(dirs), pending);
    HeldIsRecoverable(was, plans, KeptBy(dirs), pending);
    hide EachCanUndo, AllBefore, RestoredAll, Ready, Held, AllRecoverable, PlansDisjoint, Went;
    o := RecoverPending(disk, dirs);
    forall i | 0 <= i < |dirs| && old(Pending(dirs[i])) ensures AllBefore(disk.files, dirs[i].plan) {
      assert pending[i] && plans[i] == dirs[i].plan;
    }
    forall p | forall i :: 0 <= i < |dirs| && old(Pending(dirs[i])) ==> !HasPath(dirs[i].plan, p)
      ensures Get(disk.files, p) == Get(was, p)
    {
      assert forall k :: 0 <= k < |plans| && pending[k] ==> !HasPath(plans[k], p);
    }
  }

  lemma HeldIsRecoverable(files: Files, plans: seq<seq<Change>>, shelves: seq<Shelf>, pending: seq<bool>)
    requires |plans| == |shelves| == |pending|
    requires forall i :: 0 <= i < |plans| && pending[i] ==> Held(plans[i], shelves[i], files)
    ensures AllRecoverable(files, plans, pending)
  {
    forall k, i | 0 <= k < |plans| && pending[k] && 0 <= i < |plans[k]|
      ensures Before(files, plans[k][i]) || Replaced(files, plans[k][i])
    {
      assert HeldAt(plans[k], shelves[k], files, i);
    }
  }

  /** Two pending transactions, the second applied on top of the first, and listed oldest first: one
      undisturbed call ends with the original root exactly if they do not clash, the first has a backup of
      every file that the second left at the first's candidate, and no file has content that is unknown to
      an entry which says that it was installed. */
  method RecoverOldestFirst(disk: Disk, first: TransactionDir, second: TransactionDir, ghost start: Files,
      ghost middle: Files)
    returns (o: Outcome)
    requires !disk.died && Sound(disk, [first, second]) && Undisturbed(disk, [first, second])
    requires Pending(first) && Pending(second)
    requires first.Valid() && second.Valid()
    requires Applied(start, middle, first.plan) && Applied(middle, disk.files, second.plan)
    requires Held(first.plan, first.Kept(), middle) && Held(second.plan, second.Kept(), disk.files)
    modifies disk`files, disk`clock, disk`died, disk`log
    modifies first, second
    ensures Sound(disk, [first, second])
    ensures o == Done && disk.files == start <==>
      old(OldestFirstWorks(start, middle, disk.files, first.plan, second.plan, first.Kept(), second.Kept()))
    ensures o == Done ==> !Pending(first) && !Pending(second)
    ensures o in {Done, Raised}
  {
    var dirs := [first, second];
    assert PlansOf(dirs) == [first.plan, second.plan] && PendingAmong(dirs) == [true, true];
    assert KeptBy(dirs) == [first.Kept(), second.Kept()];
    OldestFirstCanEnd(start, middle, disk.files, first.plan, second.plan, first.Kept(), second.Kept());
    hide EachCanUndo, OldestFirstWorks, Held, Applied, RestoredAll, GivesBack;
    o := RecoverPending(disk, dirs);
    assert o == Done ==> !Pending(dirs[0]) && !Pending(dirs[1]);
  }
}
