/** The journaled transaction engine. */
module Transaction {
  import opened Basics
  import opened JournalModel
  import opened UndoModel

  /** The configuration root together with everything that may interfere with it. */
  class Disk {
    var files: Files

    /** What happens around each file-system operation. The machine dies when the script is used
        up; `clock` counts the operations of this boot. */
    var script: seq<Event>
    var clock: nat
    /** The machine stopped in the middle of an operation; it does nothing more until it starts again. */
    var died: bool

    ghost var start: Files
    ghost var log: seq<Write>
    ghost var planned: set<Change>

    ghost predicate Valid()
      reads this
    {
      Explains(planned, start, log, files) && (died ==> clock >= |script|)
    }

    ghost predicate Running()
      reads this
    {
      Valid() && !died
    }

    constructor (root: Files)
      ensures Running() && files == start == root && log == [] && planned == {} && script == []
    {
      files, start, script, clock, died := root, root, [], 0, false;
      log, planned := [], {};
    }

    /** The machine starts again, with a new script. */
    method Boot(events: seq<Event>)
      requires Valid()
      modifies `script, `clock, `died
      ensures Running() && script == events && clock == 0
    {
      script, clock, died := events, 0, false;
    }

    /** The surroundings of one file-system operation. */
    method Tick() returns (o: Outcome)
      requires Running()
      modifies `files, `clock, `died, `log
      ensures Valid() && (died <==> o == Crashed)
      ensures Drift(old(files), files, script) && (Calm(script) ==> files == old(files))
      ensures old(clock) >= |script| ==>
        o == Crashed && clock == old(clock)
      ensures old(clock) < |script| ==>
        && o == (if script[old(clock)].fails then Raised else Done)
        && clock == old(clock) + 1
      ensures EditsSince(old(log), log)
      ensures files == if old(clock) < |script| then ApplyEdits(old(files), script[old(clock)].edits) else old(files)
    {
      if clock >= |script| {
        died := true;
        return Crashed;
      }
      var event := script[clock];
      ghost var write := Edited(event.edits);
      ExplainsNext(planned, start, log, files, write);
      log := log + [write];
      files := ApplyEdits(files, event.edits);
      clock := clock + 1;
      o := if event.fails then Raised else Done;
    }

    /** From now on these changes belong to some transaction. */
    ghost method Plan(changes: seq<Change>)
      requires Valid()
      modifies `planned
      ensures Valid() && planned == old(planned) + (set i | 0 <= i < |changes| :: changes[i])
    {
      LawfulForMorePlans(planned, planned + (set i | 0 <= i < |changes| :: changes[i]), start, log);
      planned := planned + (set i | 0 <= i < |changes| :: changes[i]);
    }

    /** A rename or removal in the root; `write` is its place in the history. */
    method Store(path: string, content: Option<Content>, ghost write: Write)
      requires Valid() && LawfulWrite(planned, start, log, write)
      requires write.Install? || write.Restore?
      requires write.change.path == path
      requires content == if write.Install? then Some(write.change.candidate) else write.change.previous
      modifies `files, `log
      ensures Valid() && Get(files, path) == content && SameExcept(path, old(files), files)
    {
      hide Explains, LawfulWrite, Replay, Lawful, Put, SameExcept;
      GetPut(files, path, content);
      ExplainsNext(planned, start, log, files, write);
      log := log + [write];
      files := Put(files, path, content);
    }
  }

  /** One transaction directory, with the staged and restore copies that carry its id. */
  class TransactionDir {
    var backups: map<nat, Content>
    var manifest: Option<Manifest>
    /** The exclusive temporary manifest is lying around. */
    var temporary: bool
    var staged: map<nat, Content>
    var restoring: map<string, Content>

    ghost const plan: seq<Change>
    ghost var history: seq<TxState>

    ghost predicate Valid()
      reads this
    {
      && DistinctPaths(plan)
      && LegalHistory(history)
      && (manifest.None? <==> history == [])
      && (manifest.Some? ==>
        && Matches(manifest.value.changes, plan)
        && manifest.value.state == history[|history| - 1])
    }

    function Kept(): Shelf
      reads this
    {
      Shelf(manifest, backups, staged, restoring)
    }

    predicate At(state: TxState)
      reads this
    {
      manifest.Some? && manifest.value.state == state
    }

    /** The states a failed apply can leave behind. */
    predicate Failed()
      reads this
    {
      At(Preparing) || At(Committing) || At(RollingBack) || At(RecoveryRequired) || At(RolledBack)
    }

    /** The journal on disk says that this transaction is being undone, and so does `m`. */
    ghost predicate Undoing(m: Manifest)
      reads this
    {
      && Valid() && Matches(m.changes, plan)
      && m.state in {RollingBack, Recovering}
      && manifest.Some? && manifest.value.state == m.state
    }

    /** The files are being prepared or committed. */
    ghost predicate Applying(m: Manifest)
      reads this
    {
      && Valid() && Matches(m.changes, plan)
      && m.state in {Preparing, Committing}
      && manifest.Some? && manifest.value.state in {Preparing, Committing}
      && restoring == map[]
    }

    constructor (ghost changes: seq<Change>)
      requires DistinctPaths(changes)
      ensures Valid() && plan == changes && manifest == None && !temporary
      ensures backups == map[] && staged == map[] && restoring == map[]
    {
      plan := changes;
      backups, staged, restoring := map[], map[], map[];
      manifest, temporary, history := None, false, [];
    }

    /** The rename of the temporary manifest over the manifest. */
    method Publish(m: Manifest)
      requires Valid() && Matches(m.changes, plan) && MayFollow(history, m.state)
      modifies `manifest, `temporary, `history
      ensures Valid() && manifest == Some(m) && !temporary && history == old(history) + [m.state]
    {
      LegalNext(history, m.state);
      manifest, temporary, history := Some(m), false, history + [m.state];
    }
  }

  /** The next operations all succeed. */
  ghost predicate Runs(disk: Disk, steps: nat)
    reads disk
  {
    Enough(disk.script, disk.clock, steps)
  }

  /** The machine dies before it can do anything more. */
  ghost predicate UsedUp(disk: Disk)
    reads disk
  {
    disk.clock >= |disk.script|
  }

  /** It does this much more, without an error, and then dies. */
  ghost predicate DiesAfter(disk: Disk, steps: nat)
    reads disk
  {
    Runs(disk, steps) && |disk.script| == disk.clock + steps
  }

  /** They all succeed, and nobody edits a file meanwhile. */
  ghost predicate QuietFor(disk: Disk, steps: nat)
    reads disk
  {
    QuietAt(disk.script, disk.clock, steps)
  }

  ghost function Now(disk: Disk, dir: TransactionDir): Moment
    reads disk, dir
  {
    Moment(disk.files, disk.clock, dir.Kept(), dir.temporary)
  }

  ghost predicate Overtaken(disk: Disk, dir: TransactionDir, i: nat, wait: nat, steps: nat)
    reads disk, dir
  {
    OvertakenIn(disk.script, dir.plan, Now(disk, dir), i, wait, steps)
  }

  /** The body of the manifest write: exclusive creation of the temporary file, then a rename. */
  method WriteAndRename(disk: Disk, dir: TransactionDir, m: Manifest) returns (o: Outcome)
    requires disk.Running() && dir.Valid() && Matches(m.changes, dir.plan) && MayFollow(dir.history, m.state)
    modifies disk`files, disk`clock, disk`died, disk`log, dir`manifest, dir`temporary, dir`history
    ensures disk.Valid() && (disk.died <==> o == Crashed) && dir.Valid()
    ensures Drift(old(disk.files), disk.files, disk.script) && (Calm(disk.script) ==> disk.files == old(disk.files))
    ensures o == Done ==>
      dir.manifest == Some(m) && !dir.temporary && !old(dir.temporary) && dir.history == old(dir.history) + [m.state]
    ensures o != Done ==> dir.manifest == old(dir.manifest) && dir.history == old(dir.history)
    ensures old(disk.clock) <= disk.clock <= old(disk.clock) + 2
    ensures Faultless(disk.script, old(disk.clock)) && |disk.script| >= old(disk.clock) + 2 ==>
      && o == (if old(dir.temporary) then Raised else Done)
      && (o == Raised ==> dir.temporary && disk.clock == old(disk.clock) + 1)
    ensures old(QuietFor(disk, 2)) && !old(dir.temporary) ==>
      disk.clock == old(disk.clock) + 2 && disk.files == old(disk.files)
    ensures Faultless(disk.script, old(disk.clock)) && !old(dir.temporary) ==> o != Raised
    ensures o == Done ==> !Faulted(disk.script, old(disk.clock), disk.clock)
    ensures o == Raised && !old(dir.temporary) ==> Faulted(disk.script, old(disk.clock), disk.clock)
    ensures o != Done ==> dir.temporary == (old(dir.temporary) || old(WorksAt(disk.script, disk.clock)))
    ensures !old(WorksAt(disk.script, disk.clock)) || old(dir.temporary) ==> disk.clock <= old(disk.clock) + 1
  {
    o := disk.Tick();
    if o != Done { return; }
    if dir.temporary { return Raised; }
    dir.temporary := true;
    o := disk.Tick();
    if o != Done { return; }
    dir.Publish(m);
  }

  /** Writes the manifest; a temporary file that is still there afterwards is removed. */
  method AtomicJson(disk: Disk, dir: TransactionDir, m: Manifest) returns (o: Outcome)
    requires disk.Running() && dir.Valid() && Matches(m.changes, dir.plan) && MayFollow(dir.history, m.state)
    modifies disk`files, disk`clock, disk`died, disk`log, dir`manifest, dir`temporary, dir`history
    ensures disk.Valid() && (disk.died <==> o == Crashed) && dir.Valid()
    ensures Drift(old(disk.files), disk.files, disk.script) && (Calm(disk.script) ==> disk.files == old(disk.files))
    ensures o == Done ==>
      dir.manifest == Some(m) && !dir.temporary && dir.history == old(dir.history) + [m.state]
    ensures o != Done ==> dir.manifest == old(dir.manifest) && dir.history == old(dir.history)
    ensures old(disk.clock) <= disk.clock <= old(disk.clock) + 3
    ensures Faultless(disk.script, old(disk.clock)) && |disk.script| >= old(disk.clock) + 2 ==>
      && o == (if old(dir.temporary) then Raised else Done)
      && !dir.temporary
      && disk.clock <= old(disk.clock) + 2
    ensures old(QuietFor(disk, 2)) && !old(dir.temporary) ==>
      disk.clock == old(disk.clock) + 2 && disk.files == old(disk.files)
    ensures Faultless(disk.script, old(disk.clock)) && !old(dir.temporary) ==> o != Raised
    ensures o == Done ==> !Faulted(disk.script, old(disk.clock), disk.clock)
    ensures o == Raised && !old(dir.temporary) ==> Faulted(disk.script, old(disk.clock), disk.clock)
    ensures o == Crashed ==> dir.temporary == (old(dir.temporary) || old(WorksAt(disk.script, disk.clock)))
    ensures OneFault(disk.script, old(disk.clock)) && !old(dir.temporary) && o == Raised ==> !dir.temporary
    ensures !old(WorksAt(disk.script, disk.clock)) && !old(dir.temporary) ==>
      !dir.temporary && disk.clock <= old(disk.clock) + 1
  {
    o := WriteAndRename(disk, dir, m);
    if o == Raised && dir.temporary {
      var unlinked := disk.Tick();
      if unlinked == Done { dir.temporary := false; }
      if unlinked == Crashed { o := Crashed; }
    }
  }

  /** A pending journal: there is a manifest and it has not ended. */
  predicate Pending(dir: TransactionDir)
    reads dir
  {
    dir.manifest.Some? && !Terminal(dir.manifest.value.state)
  }

  /** Nothing in this journal would make the undoing of these files raise. */
  ghost predicate Undoable(dir: TransactionDir, files: Files)
    reads dir
  {
    dir.manifest.Some? && CanUndoAll(dir.plan, dir.manifest.value.changes, dir.backups, files)
  }

  ghost predicate PlannedOn(disk: Disk, dir: TransactionDir)
    reads disk, dir
  {
    forall i :: 0 <= i < |dir.plan| ==> dir.plan[i] in disk.planned
  }

  /** Copies a backup next to its target. */
  method CopyFile(disk: Disk, dir: TransactionDir, path: string, content: Content) returns (o: Outcome)
    requires disk.Running()
    modifies disk`files, disk`clock, disk`died, disk`log, dir`restoring
    ensures disk.Valid() && (disk.died <==> o == Crashed) && EditsSince(old(disk.log), disk.log)
    ensures Drift(old(disk.files), disk.files, disk.script) && (Calm(disk.script) ==> disk.files == old(disk.files))
    ensures dir.restoring - {path} == old(dir.restoring) - {path}
    ensures o == Done ==> path in dir.restoring && dir.restoring[path] == content
    ensures old(disk.clock) <= disk.clock <= old(disk.clock) + 2
    ensures Faultless(disk.script, old(disk.clock)) && |disk.script| >= old(disk.clock) + 2 ==> o == Done
    ensures o == Done ==> disk.clock == old(disk.clock) + 2 && !Faulted(disk.script, old(disk.clock), disk.clock)
    ensures o == Raised ==> Faulted(disk.script, old(disk.clock), disk.clock)
    ensures o != Done ==>
      dir.restoring ==
        if old(WorksAt(disk.script, disk.clock)) then old(dir.restoring)[path := ""] else old(dir.restoring)
  {
    o := disk.Tick();
    if o != Done { return; }
    dir.restoring := dir.restoring[path := ""];
    o := disk.Tick();
    if o != Done { return; }
    dir.restoring := dir.restoring[path := content];
  }

  lemma RestoreIsLawful(planned: set<Change>, start: Files, examined: seq<Write>, files: Files, log: seq<Write>,
      change: Change)
    requires Explains(planned, start, examined, files) && Get(files, change.path) == Some(change.candidate)
    requires change in planned && EditsSince(examined, log)
    ensures LawfulWrite(planned, start, log, Restore(change, |examined|))
  {
  }

  /** Copies a backup next to its target and renames it over the target. */
  method CopyBack(disk: Disk, dir: TransactionDir, path: string, content: Content, ghost change: Change)
    returns (o: Outcome)
    requires disk.Running() && change in disk.planned
    requires change.path == path && change.previous == Some(content)
    requires Get(disk.files, path) == Some(change.candidate)
    modifies disk`files, disk`clock, disk`died, disk`log, dir`restoring
    ensures disk.Valid() && (disk.died <==> o == Crashed)
    ensures o == Done ==> Get(disk.files, path) == Some(content) && path !in dir.restoring
    ensures dir.restoring - {path} == old(dir.restoring) - {path}
    ensures DriftExcept(path, old(disk.files), disk.files, disk.script)
    ensures Calm(disk.script) ==>
      if o == Done then SameExcept(path, old(disk.files), disk.files) else disk.files == old(disk.files)
    ensures old(disk.clock) <= disk.clock <= old(disk.clock) + 3
    ensures Faultless(disk.script, old(disk.clock)) && |disk.script| >= old(disk.clock) + 3 ==> o == Done
    ensures o == Done ==> disk.clock == old(disk.clock) + 3 && !Faulted(disk.script, old(disk.clock), disk.clock)
    ensures o == Raised ==> Faulted(disk.script, old(disk.clock), disk.clock)
  {
    hide Explains, LawfulWrite, Replay, Lawful;
    ghost var examined, files := disk.log, disk.files;
    o := CopyFile(disk, dir, path, content);
    if o != Done { return; }
    ghost var copied := disk.log;
    o := disk.Tick();
    if o != Done { return; }
    EditsSinceTransitive(examined, copied, disk.log);
    RestoreIsLawful(disk.planned, disk.start, examined, files, disk.log, change);
    disk.Store(path, Some(dir.restoring[path]), Restore(change, |examined|));
    dir.restoring := dir.restoring - {path};
  }

  /** Removes a created file. */
  method Unlink(disk: Disk, path: string, ghost change: Change) returns (o: Outcome)
    requires disk.Running() && change in disk.planned
    requires change.path == path && change.previous == None
    requires Get(disk.files, path) == Some(change.candidate)
    modifies disk`files, disk`clock, disk`died, disk`log
    ensures disk.Valid() && (disk.died <==> o == Crashed)
    ensures o == Done ==> Get(disk.files, path) == None
    ensures DriftExcept(path, old(disk.files), disk.files, disk.script)
    ensures Calm(disk.script) ==>
      if o == Done then SameExcept(path, old(disk.files), disk.files) else disk.files == old(disk.files)
    ensures old(disk.clock) <= disk.clock <= old(disk.clock) + 1
    ensures Faultless(disk.script, old(disk.clock)) && Calm(disk.script) && |disk.script| >= old(disk.clock) + 1 ==>
      o == Done
    ensures o == Done <==>
      && old(WorksAt(disk.script, disk.clock))
      && (path in disk.script[old(disk.clock)].edits ==> disk.script[old(disk.clock)].edits[path].Some?)
    ensures o == Done ==> !Faulted(disk.script, old(disk.clock), disk.clock)
    ensures Calm(disk.script) && o == Raised ==> Faulted(disk.script, old(disk.clock), disk.clock)
  {
    ghost var examined := disk.log;
    o := disk.Tick();
    if o != Done { return; }
    if path !in disk.files { return Raised; }
    disk.Store(path, None, Restore(change, |examined|));
  }

  /** The file operations of restoring one entry: examines the target and undoes it if it holds the
      candidate. */
  method UndoTarget(disk: Disk, dir: TransactionDir, e: Entry, i: nat) returns (o: Outcome, v: Verdict)
    requires disk.Running() && dir.Valid() && PlannedOn(disk, dir)
    requires i < |dir.plan| && Describes(e, dir.plan[i])
    modifies disk`files, disk`clock, disk`died, disk`log, dir`restoring
    ensures disk.Valid() && (disk.died <==> o == Crashed)
    ensures dir.Valid() && dir.restoring - {e.path} == old(dir.restoring) - {e.path}
    ensures o == Done ==> match v
      case AlreadyUndone => Before(disk.files, dir.plan[i]) && dir.restoring == old(dir.restoring)
      case LeftAlone => Get(disk.files, e.path) != Some(dir.plan[i].candidate) && e.status != Installed
      case PutBack => Before(disk.files, dir.plan[i]) && dir.plan[i].previous != Some(dir.plan[i].candidate)
                      && (e.path in dir.restoring ==> e.path in old(dir.restoring) && dir.plan[i].previous.None?)
    ensures DriftExcept(e.path, old(disk.files), disk.files, disk.script)
    ensures Calm(disk.script) ==>
      && SameExcept(e.path, old(disk.files), disk.files)
      && (o != Done || v != PutBack ==> disk.files == old(disk.files))
      && (o == Done ==> Get(disk.files, e.path) == RestoredContent(old(disk.files), dir.plan[i]))
      && (dir.restoring != old(dir.restoring) ==> old(Replaced(disk.files, dir.plan[i])) && dir.plan[i].previous.Some?)
    ensures old(disk.clock) <= disk.clock <= old(disk.clock) + 4
    ensures Calm(disk.script) && old(Runs(disk, 4)) ==>
      o == if old(CanUndo(dir.plan[i], e, i, dir.backups, disk.files)) then Done else Raised
    ensures Calm(disk.script) && !old(CanUndo(dir.plan[i], e, i, dir.backups, disk.files)) ==>
      o != Done && disk.files == old(disk.files)
    ensures Calm(disk.script) && o == Done && old(HeldAt(dir.plan, dir.Kept(), disk.files, i)) ==> v != LeftAlone
    ensures o == Done ==> !Faulted(disk.script, old(disk.clock), disk.clock)
    ensures Calm(disk.script) && old(CanUndo(dir.plan[i], e, i, dir.backups, disk.files)) && o == Raised ==>
      Faulted(disk.script, old(disk.clock), disk.clock)
    ensures Calm(disk.script) && o == Done ==> (v == LeftAlone <==> !Before(disk.files, dir.plan[i]))
    ensures old(Overtaken(disk, dir, i, 0, 4)) ==>
      o == Done && v == PutBack && Before(disk.files, dir.plan[i]) && disk.clock == old(disk.clock) + 4
  {
    v := LeftAlone;
    o := disk.Tick();
    if o != Done { return; }
    var current := DigestOf(Get(disk.files, e.path));
    if current == e.previousSha256 {
      return Done, AlreadyUndone;
    }
    if current != Some(e.candidateSha256) {
      o := if e.status == Installed then Raised else Done;
      return;
    }
    v := PutBack;
    if e.action == Modify {
      if i !in dir.backups || Some(Sha256(dir.backups[i])) != e.previousSha256 {
        return Raised, v;
      }
      o := CopyBack(disk, dir, e.path, dir.backups[i], dir.plan[i]);
    } else {
      o := Unlink(disk, e.path, dir.plan[i]);
    }
  }

  /** Undoing one target keeps the whole transaction held. */
  method UndoEntry(disk: Disk, dir: TransactionDir, m: Manifest, i: nat) returns (o: Outcome, v: Verdict)
    requires disk.Running() && dir.Undoing(m) && PlannedOn(disk, dir) && i < |m.changes|
    modifies disk`files, disk`clock, disk`died, disk`log, dir`restoring
    ensures disk.Valid() && (disk.died <==> o == Crashed) && dir.Undoing(m)
    ensures Examined(dir.plan, disk.script, m.changes, old(Now(disk, dir)), Now(disk, dir), i, o, v)
  {
    ghost var kept, files := dir.Kept(), disk.files;
    assert Describes(m.changes[i], dir.plan[i]);
    o, v := UndoTarget(disk, dir, m.changes[i], i);
    if Calm(disk.script) && Held(dir.plan, kept, files) {
      assert HeldAt(dir.plan, kept, files, i);
      HeldAfterUndo(dir.plan, kept, dir.Kept(), files, disk.files, i);
    }
  }

  /** Marks an entry as rolled back and persists the manifest. */
  method RecordUndone(disk: Disk, dir: TransactionDir, m: Manifest, i: nat) returns (o: Outcome, r: Manifest)
    requires disk.Running() && dir.Undoing(m) && i < |m.changes|
    modifies disk`files, disk`clock, disk`died, disk`log, dir`manifest, dir`temporary, dir`history
    ensures disk.Valid() && (disk.died <==> o == Crashed) && dir.Undoing(r) && r == WithStatus(m, i, Undone)
    ensures Recorded(dir.plan, disk.script, r.changes, old(Now(disk, dir)), Now(disk, dir), o)
  {
    r := WithStatus(m, i, Undone);
    ghost var kept := dir.Kept();
    o := AtomicJson(disk, dir, r);
    if Calm(disk.script) && Held(dir.plan, kept, disk.files) {
      HeldInState(dir.plan, kept, dir.Kept(), disk.files);
    }
  }

  /** Restores one entry and records it, persisting the manifest only after a file was written. */
  method RestoreEntry(disk: Disk, dir: TransactionDir, m: Manifest, i: nat) returns (o: Outcome, r: Manifest)
    requires disk.Running() && dir.Undoing(m) && PlannedOn(disk, dir) && i < |m.changes|
    modifies disk`files, disk`clock, disk`died, disk`log, dir`restoring, dir`manifest, dir`temporary, dir`history
    ensures disk.Valid() && (disk.died <==> o == Crashed) && dir.Undoing(r) && r.state == m.state
    ensures OneEntry(dir.plan, disk.script, m.changes, r.changes, old(Now(disk, dir)), Now(disk, dir), i, o)
  {
    hide Examined, Recorded, OneEntry;
    r := m;
    ghost var was := Now(disk, dir);
    var v;
    o, v := UndoEntry(disk, dir, m, i);
    if o == Done && v == PutBack {
      ghost var middle := Now(disk, dir);
      o, r := RecordUndone(disk, dir, m, i);
      EntryRecorded(dir.plan, disk.script, m.changes, r.changes, was, middle, Now(disk, dir), i, o);
      return;
    }
    if o == Done && v == AlreadyUndone {
      r := WithStatus(m, i, Undone);
    }
    EntryExamined(dir.plan, disk.script, m.changes, r.changes, was, Now(disk, dir), i, o, v);
  }

  /** Removes the staged copies, present or not. */
  method CleanupStages(disk: Disk, dir: TransactionDir, ghost m: Manifest, count: nat) returns (o: Outcome)
    requires disk.Running() && dir.Undoing(m) && count == |dir.plan|
    modifies disk`files, disk`clock, disk`died, disk`log, dir`staged
    ensures disk.Valid() && (disk.died <==> o == Crashed) && dir.Valid()
    ensures dir.Undoing(m) && Cleaned(dir.plan, disk.script, old(Now(disk, dir)), Now(disk, dir), o)
  {
    o := Done;
    for i := 0 to count
      invariant disk.Running() && dir.Valid() && o == Done
      invariant Drift(old(disk.files), disk.files, disk.script) && (Calm(disk.script) ==> disk.files == old(disk.files))
      invariant dir.staged.Keys <= old(dir.staged.Keys) && forall j :: j in dir.staged ==> j >= i
      invariant old(disk.clock) <= disk.clock <= old(disk.clock) + i
      invariant !Faulted(disk.script, old(disk.clock), disk.clock)
      invariant old(QuietFor(disk, count)) ==> disk.files == old(disk.files) && disk.clock == old(disk.clock) + i
    {
      o := disk.Tick();
      if o != Done { return; }
      dir.staged := dir.staged - {i};
    }
  }

  /** The next entry, when those after it have been gone through. */
  method RestoreNext(disk: Disk, dir: TransactionDir, ghost m: Manifest, r: Manifest, ghost was: Moment, i: nat)
    returns (o: Outcome, next: Manifest)
    requires disk.Running() && dir.Undoing(r) && PlannedOn(disk, dir) && i < |r.changes|
    requires Going(dir.plan, disk.script, m.changes, r.changes, was, Now(disk, dir), i + 1)
    modifies disk`files, disk`clock, disk`died, disk`log, dir`restoring, dir`manifest, dir`temporary, dir`history
    ensures disk.Valid() && (disk.died <==> o == Crashed) && dir.Undoing(next) && next.state == r.state
    ensures o == Done ==> Going(dir.plan, disk.script, m.changes, next.changes, was, Now(disk, dir), i)
    ensures o != Done ==> AllEntries(dir.plan, disk.script, m.changes, next.changes, was, Now(disk, dir), o)
  {
    hide Going, OneEntry, AllEntries;
    ghost var middle := Now(disk, dir);
    o, next := RestoreEntry(disk, dir, r, i);
    if o == Done {
      GoesOn(dir.plan, disk.script, m.changes, r.changes, next.changes, was, middle, Now(disk, dir), i);
    } else {
      Stops(dir.plan, disk.script, m.changes, r.changes, next.changes, was, middle, Now(disk, dir), i, o);
    }
  }

  /** Restores every entry, last change first. */
  method RestoreEntries(disk: Disk, dir: TransactionDir, m: Manifest) returns (o: Outcome, r: Manifest)
    requires disk.Running() && dir.Undoing(m) && PlannedOn(disk, dir)
    modifies disk`files, disk`clock, disk`died, disk`log, dir`restoring, dir`manifest, dir`temporary, dir`history
    ensures disk.Valid() && (disk.died <==> o == Crashed) && dir.Undoing(r) && r.state == m.state
    ensures AllEntries(dir.plan, disk.script, m.changes, r.changes, old(Now(disk, dir)), Now(disk, dir), o)
  {
    ghost var was := Now(disk, dir);
    r, o := m, Done;
    NotBegun(dir.plan, disk.script, m.changes, was);
    hide Going, AllEntries;
    var i := |m.changes|;
    while i > 0
      invariant 0 <= i <= |r.changes|
      invariant disk.Running() && dir.Undoing(r) && r.state == m.state && o == Done
      invariant Going(dir.plan, disk.script, m.changes, r.changes, was, Now(disk, dir), i)
    {
      i := i - 1;
      o, r := RestoreNext(disk, dir, m, r, was, i);
      if o != Done { return; }
    }
    WentThrough(dir.plan, disk.script, m.changes, r.changes, was, Now(disk, dir));
  }

  /** Undoes a transaction from its manifest alone. */
  method RestoreFromManifest(disk: Disk, dir: TransactionDir, m: Manifest) returns (o: Outcome, r: Manifest)
    requires disk.Running() && dir.Undoing(m) && PlannedOn(disk, dir)
    modifies disk`files, disk`clock, disk`died, disk`log
    modifies dir`restoring, dir`manifest, dir`temporary, dir`history, dir`staged
    ensures disk.Valid() && (disk.died <==> o == Crashed) && dir.Undoing(r) && r.state == m.state
    ensures FilesRestored(dir.plan, disk.script, m, r, old(Now(disk, dir)), Now(disk, dir), o)
  {
    hide AllEntries, Cleaned, FilesRestored;
    ghost var was := Now(disk, dir);
    o, r := RestoreEntries(disk, dir, m);
    if o != Done {
      RestoreStops(dir.plan, disk.script, m, r, was, Now(disk, dir), o);
      return;
    }
    ghost var middle := Now(disk, dir);
    o := CleanupStages(disk, dir, r, |r.changes|);
    RestoreEnds(dir.plan, disk.script, m, r, was, middle, Now(disk, dir), o);
  }

  /** Checks that a target still is what the plan was made for. */
  method VerifyPrecondition(disk: Disk, change: Change) returns (o: Outcome)
    requires disk.Running()
    modifies disk`files, disk`clock, disk`died, disk`log
    ensures disk.Valid() && (disk.died <==> o == Crashed)
    ensures Drift(old(disk.files), disk.files, disk.script) && (Calm(disk.script) ==> disk.files == old(disk.files))
    ensures o == Done ==> Before(disk.files, change)
    ensures old(disk.clock) <= disk.clock <= old(disk.clock) + 1
    ensures o == Done ==> disk.clock == old(disk.clock) + 1
    ensures old(WorksAt(disk.script, disk.clock)) ==> o == if Before(disk.files, change) then Done else Raised
    ensures o == Done ==> !Faulted(disk.script, old(disk.clock), disk.clock)
    ensures o == Raised && Before(disk.files, change) ==> Faulted(disk.script, old(disk.clock), disk.clock)
  {
    o := disk.Tick();
    if o != Done { return; }
    if change.previous.None? {
      if change.path in disk.files { o := Raised; }
    } else {
      if change.path !in disk.files || Sha256(disk.files[change.path]) != Sha256(change.previous.value) {
        o := Raised;
      }
    }
  }

  method VerifyPreconditions(disk: Disk, changes: seq<Change>) returns (o: Outcome)
    requires disk.Running()
    modifies disk`files, disk`clock, disk`died, disk`log
    ensures disk.Valid() && (disk.died <==> o == Crashed)
    ensures Drift(old(disk.files), disk.files, disk.script) && (Calm(disk.script) ==> disk.files == old(disk.files))
    ensures Calm(disk.script) && o == Done ==> AllBefore(disk.files, changes)
    ensures old(disk.clock) <= disk.clock <= old(disk.clock) + |changes|
    ensures o == Done ==> disk.clock == old(disk.clock) + |changes|
    ensures Calm(disk.script) && old(Runs(disk, |changes|)) && AllBefore(disk.files, changes) ==> o == Done
    ensures o == Done ==> !Faulted(disk.script, old(disk.clock), disk.clock)
    ensures Calm(disk.script) && AllBefore(disk.files, changes) && o == Raised ==>
      Faulted(disk.script, old(disk.clock), disk.clock)
  {
    o := Done;
    for i := 0 to |changes|
      invariant disk.Running() && o == Done
      invariant Drift(old(disk.files), disk.files, disk.script) && (Calm(disk.script) ==> disk.files == old(disk.files))
      invariant Calm(disk.script) ==> forall j :: 0 <= j < i ==> Before(disk.files, changes[j])
      invariant disk.clock == old(disk.clock) + i && !Faulted(disk.script, old(disk.clock), disk.clock)
    {
      o := VerifyPrecondition(disk, changes[i]);
      if o != Done { return; }
    }
  }

  /** Copies the target into the transaction directory and checks the copy. */
  method BackUp(disk: Disk, dir: TransactionDir, change: Change, i: nat) returns (o: Outcome)
    requires disk.Running() && change.previous.Some?
    modifies disk`files, disk`clock, disk`died, disk`log, dir`backups
    ensures disk.Valid() && (disk.died <==> o == Crashed)
    ensures Drift(old(disk.files), disk.files, disk.script) && (Calm(disk.script) ==> disk.files == old(disk.files))
    ensures AlikeExcept(i, old(dir.backups), dir.backups)
    ensures o == Done ==> i in dir.backups && dir.backups[i] == change.previous.value
    ensures old(disk.clock) <= disk.clock <= old(disk.clock) + 2
    ensures Calm(disk.script) && old(Runs(disk, 2)) && Before(disk.files, change) ==> o == Done
    ensures o == Done ==> !Faulted(disk.script, old(disk.clock), disk.clock)
    ensures Calm(disk.script) && Before(disk.files, change) && o == Raised ==>
      Faulted(disk.script, old(disk.clock), disk.clock)
    ensures Calm(disk.script) ==>
      dir.backups ==
        if !old(WorksAt(disk.script, disk.clock)) || change.path !in disk.files then old(dir.backups)
        else if !old(WorksAt(disk.script, disk.clock + 1)) then old(dir.backups)[i := ""]
        else old(dir.backups)[i := disk.files[change.path]]
  {
    o := disk.Tick();
    if o != Done { return; }
    if change.path !in disk.files { return Raised; }
    var content := disk.files[change.path];
    dir.backups := dir.backups[i := ""];
    o := disk.Tick();
    if o != Done { return; }
    dir.backups := dir.backups[i := content];
    if Sha256(dir.backups[i]) != Sha256(change.previous.value) { o := Raised; }
  }

  /** Writes the candidate beside its target. */
  method WriteStage(disk: Disk, dir: TransactionDir, i: nat, content: Content) returns (o: Outcome)
    requires disk.Running()
    modifies disk`files, disk`clock, disk`died, disk`log, dir`staged
    ensures disk.Valid() && (disk.died <==> o == Crashed)
    ensures Drift(old(disk.files), disk.files, disk.script) && (Calm(disk.script) ==> disk.files == old(disk.files))
    ensures AlikeExcept(i, old(dir.staged), dir.staged)
    ensures o == Done ==> dir.staged == old(dir.staged)[i := content]
    ensures old(disk.clock) <= disk.clock <= old(disk.clock) + 2
    ensures o == Done <==>
      i !in old(dir.staged) && old(WorksAt(disk.script, disk.clock) && WorksAt(disk.script, disk.clock + 1))
    ensures o == Done ==> !Faulted(disk.script, old(disk.clock), disk.clock)
    ensures o == Raised && i !in old(dir.staged) ==> Faulted(disk.script, old(disk.clock), disk.clock)
    ensures o != Done ==>
      dir.staged == if i !in old(dir.staged) && old(WorksAt(disk.script, disk.clock)) then old(dir.staged)[i := ""]
                    else old(dir.staged)
  {
    o := disk.Tick();
    if o != Done { return; }
    if i in dir.staged { return Raised; }
    dir.staged := dir.staged[i := ""];
    o := disk.Tick();
    if o != Done { return; }
    dir.staged := dir.staged[i := content];
  }

  /** Backs up and stages one change. */
  method PrepareFiles(disk: Disk, dir: TransactionDir, change: Change, i: nat) returns (o: Outcome)
    requires disk.Running() && i < |dir.plan| && change == dir.plan[i]
    requires StagedBetween(dir.plan, dir.staged, 0, i) && BackedUp(dir.plan, dir.backups, i)
    modifies disk`files, disk`clock, disk`died, disk`log, dir`backups, dir`staged
    ensures disk.Valid() && (disk.died <==> o == Crashed)
    ensures forall j :: j in dir.staged ==> j <= i
    ensures o == Done ==> StagedBetween(dir.plan, dir.staged, 0, i + 1) && BackedUp(dir.plan, dir.backups, i + 1)
    ensures Drift(old(disk.files), disk.files, disk.script) && (Calm(disk.script) ==> disk.files == old(disk.files))
    ensures old(disk.clock) <= disk.clock <= old(disk.clock) + 5
    ensures old(UsedUp(disk)) ==>
      o == Crashed && dir.Kept() == old(dir.Kept()) && dir.temporary == old(dir.temporary)
    ensures Calm(disk.script) && old(Runs(disk, 5)) && Before(disk.files, change) ==> o == Done
    ensures o == Done ==> !Faulted(disk.script, old(disk.clock), disk.clock)
    ensures Calm(disk.script) && Before(disk.files, change) && o == Raised ==>
      Faulted(disk.script, old(disk.clock), disk.clock)
  {
    // The parent directories are created here.
    o := disk.Tick();
    if o == Done && change.previous.Some? {
      o := BackUp(disk, dir, change, i);
    }
    if o == Done {
      o := WriteStage(disk, dir, i, change.candidate);
    }
  }

  /** Records the progress of one change while applying. */
  method RecordProgress(disk: Disk, dir: TransactionDir, m: Manifest, i: nat, status: Status)
    returns (o: Outcome, r: Manifest)
    requires disk.Running() && dir.Applying(m) && i < |m.changes|
    modifies disk`files, disk`clock, disk`died, disk`log, dir`manifest, dir`temporary, dir`history
    ensures disk.Valid() && (disk.died <==> o == Crashed) && dir.Applying(r) && r == WithStatus(m, i, status)
    ensures dir.manifest == if o == Done then Some(r) else old(dir.manifest)
    ensures Drift(old(disk.files), disk.files, disk.script) && (Calm(disk.script) ==> disk.files == old(disk.files))
    ensures old(disk.clock) <= disk.clock <= old(disk.clock) + 3
    ensures old(Runs(disk, 2)) && !old(dir.temporary) ==>
      o == Done && !dir.temporary && disk.clock <= old(disk.clock) + 2
    ensures o == Done ==> !dir.temporary && !Faulted(disk.script, old(disk.clock), disk.clock)
    ensures o == Raised && !old(dir.temporary) ==> Faulted(disk.script, old(disk.clock), disk.clock)
    ensures OneFault(disk.script, old(disk.clock)) && !old(dir.temporary) && o == Raised ==> !dir.temporary
  {
    r := WithStatus(m, i, status);
    o := AtomicJson(disk, dir, r);
  }

  /** Backs up and stages one change, and records it as prepared. */
  method PrepareEntry(disk: Disk, dir: TransactionDir, change: Change, m: Manifest, i: nat)
    returns (o: Outcome, r: Manifest)
    requires disk.Running() && dir.Applying(m) && i < |m.changes| && change == dir.plan[i]
    requires dir.manifest == Some(m)
    requires StagedBetween(dir.plan, dir.staged, 0, i) && BackedUp(dir.plan, dir.backups, i)
    modifies disk`files, disk`clock, disk`died, disk`log
    modifies dir`backups, dir`staged, dir`manifest, dir`temporary, dir`history
    ensures disk.Valid() && (disk.died <==> o == Crashed) && dir.Applying(r) && r.state == m.state
    ensures o == Done ==> r == WithStatus(m, i, Prepared) && dir.manifest == Some(r)
    ensures o != Done ==> dir.manifest == old(dir.manifest)
    ensures forall j :: j in dir.staged ==> j <= i
    ensures o == Done ==>
      && StagedBetween(dir.plan, dir.staged, 0, i + 1) && BackedUp(dir.plan, dir.backups, i + 1)
    ensures Drift(old(disk.files), disk.files, disk.script) && (Calm(disk.script) ==> disk.files == old(disk.files))
    ensures old(disk.clock) <= disk.clock <= old(disk.clock) + 8
    ensures old(UsedUp(disk)) ==>
      o == Crashed && dir.Kept() == old(dir.Kept()) && dir.temporary == old(dir.temporary)
    ensures Calm(disk.script) && old(Runs(disk, 7)) && Before(disk.files, change) && !old(dir.temporary) ==>
      o == Done && !dir.temporary && disk.clock <= old(disk.clock) + 7
    ensures o == Done ==> !Faulted(disk.script, old(disk.clock), disk.clock) && !dir.temporary
    ensures Calm(disk.script) && Before(disk.files, change) && o == Raised && !old(dir.temporary) ==>
      Faulted(disk.script, old(disk.clock), disk.clock)
    ensures OneFault(disk.script, old(disk.clock)) && !old(dir.temporary) && o == Raised ==> !dir.temporary
  {
    hide Held, Calm, StagedBetween, BackedUp;
    r := m;
    o := PrepareFiles(disk, dir, change, i);
    if o != Done { return; }
    OneFaultLater(disk.script, old(disk.clock), disk.clock);
    o, r := RecordProgress(disk, dir, m, i, Prepared);
  }

  /** Prepares every change, in order. */
  method PrepareAll(disk: Disk, dir: TransactionDir, changes: seq<Change>, m: Manifest)
    returns (o: Outcome, r: Manifest)
    requires disk.Running() && dir.Applying(m) && changes == dir.plan && dir.staged == map[] && dir.manifest == Some(m)
    modifies disk`files, disk`clock, disk`died, disk`log
    modifies dir`backups, dir`staged, dir`manifest, dir`temporary, dir`history
    ensures disk.Valid() && (disk.died <==> o == Crashed) && dir.Applying(r) && r.state == m.state
    ensures forall j :: j in dir.staged ==> j < |changes|
    ensures o == Done ==> StagedBetween(changes, dir.staged, 0, |changes|) && BackedUp(changes, dir.backups, |changes|)
    ensures dir.manifest.Some? && dir.manifest.value.state == m.state
    ensures o == Done ==> dir.manifest == Some(r) && Stamped(r.changes, 0, |changes|, Prepared)
    ensures o == Done ==>
      !Faulted(disk.script, old(disk.clock), disk.clock) && (!old(dir.temporary) ==> !dir.temporary)
    ensures Calm(disk.script) && AllBefore(disk.files, changes) && o == Raised && !old(dir.temporary) ==>
      Faulted(disk.script, old(disk.clock), disk.clock)
    ensures OneFault(disk.script, old(disk.clock)) && !old(dir.temporary) && o == Raised ==> !dir.temporary
    ensures disk.clock <= old(disk.clock) + 8 * |changes|
    ensures Drift(old(disk.files), disk.files, disk.script) && (Calm(disk.script) ==> disk.files == old(disk.files))
    ensures old(disk.clock) <= disk.clock
    ensures old(UsedUp(disk)) && changes != [] ==>
      o == Crashed && dir.Kept() == old(dir.Kept()) && dir.temporary == old(dir.temporary)
    ensures Calm(disk.script) && AllBefore(disk.files, changes) ==>
      old(Runs(disk, 7 * |changes|) && !dir.temporary) ==>
        o == Done && !dir.temporary && disk.clock <= old(disk.clock) + 7 * |changes|
  {
    NoneStamped(m.changes, 0, Prepared);
    assert |m.changes| == |changes|;
    hide Explains, Matches, LegalHistory, Stamped, StagedBetween, BackedUp;
    r, o := m, Done;
    for i := 0 to |changes|
      invariant disk.Running() && dir.Applying(r) && r.state == m.state && o == Done
      invariant StagedBetween(changes, dir.staged, 0, i) && BackedUp(changes, dir.backups, i)
      invariant Drift(old(disk.files), disk.files, disk.script) && (Calm(disk.script) ==> disk.files == old(disk.files))
      invariant old(disk.clock) <= disk.clock <= old(disk.clock) + 8 * i
      invariant dir.manifest == Some(r) && Stamped(r.changes, 0, i, Prepared) && |r.changes| == |changes|
      invariant !Faulted(disk.script, old(disk.clock), disk.clock) && (!old(dir.temporary) ==> !dir.temporary)
      invariant old(UsedUp(disk)) ==>
        i == 0 && UsedUp(disk) && dir.Kept() == old(dir.Kept()) && dir.temporary == old(dir.temporary)
      invariant Calm(disk.script) && AllBefore(disk.files, changes) ==>
        old(Runs(disk, 7 * |changes|) && !dir.temporary) ==>
          !dir.temporary && disk.clock <= old(disk.clock) + 7 * i
    {
      OneFaultLater(disk.script, old(disk.clock), disk.clock);
      NoneStamped(r.changes, i, Planned);
      StampedNext(r, i, i, Prepared, Planned);
      o, r := PrepareEntry(disk, dir, changes[i], r, i);
      if o != Done { return; }
    }
  }

  /** Checks one target again and renames its staged copy over it; the check and the rename are one step. */
  method ReplaceTarget(disk: Disk, dir: TransactionDir, change: Change, i: nat) returns (o: Outcome)
    requires disk.Running() && i < |dir.plan| && change == dir.plan[i] && PlannedOn(disk, dir)
    requires StagedBetween(dir.plan, dir.staged, i, |dir.plan|)
    modifies disk`files, disk`clock, disk`died, disk`log, dir`staged
    ensures disk.Valid() && (disk.died <==> o == Crashed)
    ensures o == Done ==>
      && StagedBetween(dir.plan, dir.staged, i + 1, |dir.plan|)
      && Get(disk.files, change.path) == Some(change.candidate)
    ensures o != Done ==> dir.staged == old(dir.staged)
    ensures DriftExcept(change.path, old(disk.files), disk.files, disk.script)
    ensures Calm(disk.script) ==>
      && SameExcept(change.path, old(disk.files), disk.files)
      && if o == Done then old(Before(disk.files, change)) else disk.files == old(disk.files)
    ensures old(disk.clock) <= disk.clock <= old(disk.clock) + 1
    ensures Calm(disk.script) && old(Runs(disk, 1)) && old(Before(disk.files, change)) ==> o == Done
    ensures o == Done ==> !Faulted(disk.script, old(disk.clock), disk.clock)
    ensures Calm(disk.script) && old(Before(disk.files, change)) && o == Raised ==>
      Faulted(disk.script, old(disk.clock), disk.clock)
  {
    o := VerifyPrecondition(disk, change);
    if o != Done { return; }
    disk.Store(change.path, Some(dir.staged[i]), Install(change));
    dir.staged := dir.staged - {i};
  }

  /** Commits one change and records it. */
  method CommitEntry(disk: Disk, dir: TransactionDir, change: Change, m: Manifest, i: nat)
    returns (o: Outcome, r: Manifest)
    requires disk.Running() && dir.Applying(m) && i < |m.changes| && change == dir.plan[i] && PlannedOn(disk, dir)
    requires StagedBetween(dir.plan, dir.staged, i, |dir.plan|)
    modifies disk`files, disk`clock, disk`died, disk`log, dir`staged, dir`manifest, dir`temporary, dir`history
    ensures disk.Valid() && (disk.died <==> o == Crashed) && dir.Applying(r) && r.state == m.state
    ensures dir.manifest == if o == Done then Some(r) else old(dir.manifest)
    ensures o == Done ==> r == WithStatus(m, i, Installed)
    ensures forall j :: j in dir.staged ==> j < |dir.plan|
    ensures o == Done ==> StagedBetween(dir.plan, dir.staged, i + 1, |dir.plan|)
    ensures DriftExcept(change.path, old(disk.files), disk.files, disk.script)
    ensures Calm(disk.script) ==>
      && SameExcept(change.path, old(disk.files), disk.files)
      && (o == Done ==> Get(disk.files, change.path) == Some(change.candidate))
      && (disk.files == old(disk.files) || Get(disk.files, change.path) == Some(change.candidate))
    ensures old(disk.clock) <= disk.clock <= old(disk.clock) + 4
    ensures Calm(disk.script) && old(Runs(disk, 3)) && old(Before(disk.files, change)) && !old(dir.temporary) ==>
      o == Done && !dir.temporary && disk.clock <= old(disk.clock) + 3
    ensures Calm(disk.script) && disk.files != old(disk.files) ==> old(Before(disk.files, change))
    ensures o == Done ==> !Faulted(disk.script, old(disk.clock), disk.clock) && !dir.temporary
    ensures Calm(disk.script) && old(Before(disk.files, change)) && o == Raised && !old(dir.temporary) ==>
      Faulted(disk.script, old(disk.clock), disk.clock)
    ensures OneFault(disk.script, old(disk.clock)) && !old(dir.temporary) && o == Raised ==> !dir.temporary
  {
    r := m;
    o := ReplaceTarget(disk, dir, change, i);
    if o != Done { return; }
    OneFaultLater(disk.script, old(disk.clock), disk.clock);
    o, r := RecordProgress(disk, dir, m, i, Installed);
  }

  /** Commits every change, in order. */
  method CommitAll(disk: Disk, dir: TransactionDir, changes: seq<Change>, m: Manifest)
    returns (o: Outcome, r: Manifest, ghost count: nat, ghost recorded: nat)
    requires disk.Running() && dir.Applying(m) && changes == dir.plan && PlannedOn(disk, dir)
    requires dir.manifest == Some(m) && Stamped(m.changes, 0, |changes|, Prepared)
    requires StagedBetween(changes, dir.staged, 0, |changes|)
    modifies disk`files, disk`clock, disk`died, disk`log, dir`staged, dir`manifest, dir`temporary, dir`history
    ensures disk.Valid() && (disk.died <==> o == Crashed) && dir.Applying(r) && r.state == m.state
    ensures forall j :: j in dir.staged ==> j < |changes|
    ensures o == Done ==> dir.staged == map[] && recorded == |changes| && dir.manifest == Some(r)
    ensures dir.manifest.Some? && dir.manifest.value.state == m.state && recorded <= count <= recorded + 1
    ensures Stamped(dir.manifest.value.changes, 0, recorded, Installed)
    ensures Stamped(dir.manifest.value.changes, recorded, |changes|, Prepared)
    ensures o == Done ==>
      !Faulted(disk.script, old(disk.clock), disk.clock) && (!old(dir.temporary) ==> !dir.temporary)
    ensures Calm(disk.script) && AllBefore(old(disk.files), changes) && o == Raised && !old(dir.temporary) ==>
      Faulted(disk.script, old(disk.clock), disk.clock)
    ensures OneFault(disk.script, old(disk.clock)) && !old(dir.temporary) && o == Raised ==> !dir.temporary
    ensures disk.clock <= old(disk.clock) + 4 * |changes|
    ensures DriftOutside(changes, old(disk.files), disk.files, disk.script)
    ensures count <= |changes|
    ensures Calm(disk.script) && AllBefore(old(disk.files), changes) ==> InstalledUpTo(disk.files, changes, count)
    ensures old(disk.clock) <= disk.clock
    ensures Calm(disk.script) && AllBefore(old(disk.files), changes) ==>
      old(Runs(disk, 3 * |changes|) && !dir.temporary) ==>
        o == Done && !dir.temporary && disk.clock <= old(disk.clock) + 3 * |changes|
  {
    InstalledFirst(changes, disk.files);
    NoDrift(changes, disk.files, disk.script);
    NoneStamped(m.changes, 0, Installed);
    assert |m.changes| == |changes|;
    hide DriftOutside, DriftExcept, Explains, Matches, LegalHistory, SameExcept, Stamped, StagedBetween;
    r, o, count, recorded := m, Done, 0, 0;
    for i := 0 to |changes|
      invariant disk.Running() && dir.Applying(r) && r.state == m.state && o == Done && count == i
      invariant StagedBetween(changes, dir.staged, i, |changes|)
      invariant DriftOutside(changes, old(disk.files), disk.files, disk.script)
      invariant Calm(disk.script) && AllBefore(old(disk.files), changes) ==> InstalledUpTo(disk.files, changes, i)
      invariant old(disk.clock) <= disk.clock <= old(disk.clock) + 4 * i
      invariant dir.manifest == Some(r) && recorded == i && |r.changes| == |changes|
      invariant Stamped(r.changes, 0, i, Installed) && Stamped(r.changes, i, |changes|, Prepared)
      invariant !Faulted(disk.script, old(disk.clock), disk.clock) && (!old(dir.temporary) ==> !dir.temporary)
      invariant Calm(disk.script) && AllBefore(old(disk.files), changes) ==>
        old(Runs(disk, 3 * |changes|) && !dir.temporary) ==>
          !dir.temporary && disk.clock <= old(disk.clock) + 3 * i
    {
      ghost var files := disk.files;
      OneFaultLater(disk.script, old(disk.clock), disk.clock);
      StampedNext(r, i, |changes|, Installed, Prepared);
      o, r := CommitEntry(disk, dir, changes[i], r, i);
      DriftFurther(changes, i, old(disk.files), files, disk.files, disk.script);
      count := if o == Done || disk.files != files then i + 1 else i;
      if Calm(disk.script) {
        InstalledNext(changes, i, files, disk.files, count == i + 1);
      }
      if o != Done { return; }
      recorded := i + 1;
    }
  }

  /** Persists a new state of the whole transaction. */
  method WriteState(disk: Disk, dir: TransactionDir, m: Manifest, state: TxState) returns (o: Outcome, r: Manifest)
    requires disk.Running() && dir.Valid() && dir.manifest.Some?
    requires Matches(m.changes, dir.plan) && MayFollow(dir.history, state)
    modifies disk`files, disk`clock, disk`died, disk`log, dir`manifest, dir`temporary, dir`history
    ensures disk.Valid() && (disk.died <==> o == Crashed) && dir.Valid() && dir.manifest.Some?
    ensures r == m.(state := state)
    ensures o == Done ==> dir.manifest == Some(r) && dir.history == old(dir.history) + [state]
    ensures o != Done ==> dir.manifest == old(dir.manifest) && dir.history == old(dir.history)
    ensures Drift(old(disk.files), disk.files, disk.script) && (Calm(disk.script) ==> disk.files == old(disk.files))
    ensures Calm(disk.script) && old(Held(dir.plan, dir.Kept(), disk.files)) ==>
      (Truthful(state, dir.plan, dir.Kept(), disk.files) ==> Held(dir.plan, dir.Kept(), disk.files))
    ensures old(disk.clock) <= disk.clock <= old(disk.clock) + 3
    ensures old(Runs(disk, 2)) ==>
      && o == (if old(dir.temporary) then Raised else Done)
      && !dir.temporary && disk.clock <= old(disk.clock) + 2
    ensures old(QuietFor(disk, 2)) && !old(dir.temporary) ==>
      disk.clock == old(disk.clock) + 2 && disk.files == old(disk.files)
    ensures Faultless(disk.script, old(disk.clock)) && !old(dir.temporary) ==> o != Raised
    ensures o == Done ==> !dir.temporary && !Faulted(disk.script, old(disk.clock), disk.clock)
    ensures o == Raised && !old(dir.temporary) ==> Faulted(disk.script, old(disk.clock), disk.clock)
    ensures OneFault(disk.script, old(disk.clock)) && !old(dir.temporary) && o == Raised ==> !dir.temporary
  {
    r := m.(state := state);
    ghost var kept := dir.Kept();
    o := AtomicJson(disk, dir, r);
    if Calm(disk.script) && Held(dir.plan, kept, disk.files) && o == Done {
      if Truthful(state, dir.plan, dir.Kept(), disk.files) {
        HeldInState(dir.plan, kept, dir.Kept(), disk.files);
      }
    }
  }

  /** Records that undoing failed; the failure itself is raised again. */
  method Flag(disk: Disk, dir: TransactionDir, m: Manifest) returns (o: Outcome)
    requires disk.Running() && dir.Undoing(m)
    modifies disk`files, disk`clock, disk`died, disk`log, dir`manifest, dir`temporary, dir`history
    ensures disk.Valid() && (disk.died <==> o == Crashed) && dir.Valid() && o != Done
    ensures dir.At(m.state) || dir.At(RecoveryRequired)
    ensures dir.manifest == old(dir.manifest) || dir.manifest == Some(m.(state := RecoveryRequired))
    ensures Flagged(dir.plan, disk.script, m, old(Now(disk, dir)), Now(disk, dir), o)
    ensures dir.At(RecoveryRequired) <==> dir.manifest != old(dir.manifest)
  {
    ghost var r;
    o, r := WriteState(disk, dir, m, RecoveryRequired);
    if o == Done { o := Raised; }
  }

  /** Restores; a restore that fails is recorded as needing attention. */
  method RestoreOrFlag(disk: Disk, dir: TransactionDir, m: Manifest) returns (o: Outcome, r: Manifest)
    requires disk.Running() && dir.Undoing(m) && PlannedOn(disk, dir)
    modifies disk`files, disk`clock, disk`died, disk`log
    modifies dir`restoring, dir`manifest, dir`temporary, dir`history, dir`staged
    ensures disk.Valid() && (disk.died <==> o == Crashed) && dir.Valid()
    ensures dir.At(m.state) || dir.At(RecoveryRequired)
    ensures o == Done ==> dir.Undoing(r) && r.state == m.state
    ensures RestoredOrFlagged(dir.plan, disk.script, m, r, old(Now(disk, dir)), Now(disk, dir), o)
  {
    hide FilesRestored, Flagged, RestoredOrFlagged;
    ghost var was := Now(disk, dir);
    o, r := RestoreFromManifest(disk, dir, m);
    if o == Raised {
      ghost var middle := Now(disk, dir);
      o := Flag(disk, dir, r);
      FailedAndFlagged(dir.plan, disk.script, m, r, was, middle, Now(disk, dir), o);
    } else {
      RestoredWell(dir.plan, disk.script, m, r, was, Now(disk, dir), o);
    }
  }

  /** Records that a transaction is being undone. */
  method BeginUndo(disk: Disk, dir: TransactionDir, m: Manifest, begin: TxState) returns (o: Outcome, r: Manifest)
    requires disk.Running() && dir.Valid() && Matches(m.changes, dir.plan)
    requires dir.manifest.Some? && !Terminal(dir.manifest.value.state) && begin in {RollingBack, Recovering}
    modifies disk`files, disk`clock, disk`died, disk`log, dir`manifest, dir`temporary, dir`history
    ensures disk.Valid() && (disk.died <==> o == Crashed) && dir.Valid()
    ensures r == m.(state := begin) && (o == Done ==> dir.Undoing(r))
    ensures FirstWrite(dir.plan, disk.script, r, old(Now(disk, dir)), Now(disk, dir), o)
  {
    o, r := WriteState(disk, dir, m, begin);
  }

  /** Records that a transaction has been undone. */
  method FinishUndo(disk: Disk, dir: TransactionDir, m: Manifest, end: TxState) returns (o: Outcome)
    requires disk.Running() && dir.Undoing(m) && end in {RolledBack, Recovered}
    modifies disk`files, disk`clock, disk`died, disk`log, dir`manifest, dir`temporary, dir`history
    ensures disk.Valid() && (disk.died <==> o == Crashed) && dir.Valid()
    ensures if o == Done then dir.At(end) else dir.Undoing(m)
    ensures o != Done ==> dir.manifest == old(dir.manifest)
    ensures LastWrite(dir.plan, disk.script, m, end, old(Now(disk, dir)), Now(disk, dir), o)
  {
    ghost var r;
    o, r := WriteState(disk, dir, m, end);
  }

  /** Records that a transaction is being undone, and restores. A failing restore is recorded as needing
      attention. */
  method UndoFiles(disk: Disk, dir: TransactionDir, m: Manifest, begin: TxState) returns (o: Outcome, r: Manifest)
    requires disk.Running() && dir.Valid() && PlannedOn(disk, dir) && Matches(m.changes, dir.plan)
    requires dir.manifest.Some? && !Terminal(dir.manifest.value.state) && begin in {RollingBack, Recovering}
    modifies disk`files, disk`clock, disk`died, disk`log
    modifies dir`restoring, dir`manifest, dir`temporary, dir`history, dir`staged
    ensures disk.Valid() && (disk.died <==> o == Crashed) && dir.Valid()
    ensures if o == Done then dir.Undoing(r) && r.state == begin
      else dir.manifest == old(dir.manifest) || dir.At(begin) || dir.At(RecoveryRequired)
    ensures FilesUndone(dir.plan, disk.script, m, r, old(Now(disk, dir)), Now(disk, dir), o)
  {
    hide FirstWrite, RestoredOrFlagged, FilesUndone;
    ghost var was := Now(disk, dir);
    o, r := BeginUndo(disk, dir, m, begin);
    if o != Done {
      UndoBegins(dir.plan, disk.script, m, r, was, Now(disk, dir), o);
      return;
    }
    ghost var middle, begun := Now(disk, dir), r;
    o, r := RestoreOrFlag(disk, dir, r);
    UndoGoesOn(dir.plan, disk.script, m, begun, r, was, middle, Now(disk, dir), o);
  }

  /** Undoes a transaction: records that it is being undone, restores, and records that it is. A
      failing restore is recorded as needing attention. */
  method Undo(disk: Disk, dir: TransactionDir, m: Manifest, begin: TxState, end: TxState) returns (o: Outcome)
    requires disk.Running() && dir.Valid() && PlannedOn(disk, dir) && dir.manifest == Some(m) && !Terminal(m.state)
    requires begin in {RollingBack, Recovering} && end in {RolledBack, Recovered}
    modifies disk`files, disk`clock, disk`died, disk`log
    modifies dir`restoring, dir`manifest, dir`temporary, dir`history, dir`staged
    ensures disk.Valid() && (disk.died <==> o == Crashed) && dir.Valid()
    ensures if o == Done then dir.At(end) else Pending(dir)
    ensures WholeUndo(dir.plan, disk.script, m, old(Now(disk, dir)), Now(disk, dir), o)
  {
    hide FilesUndone, LastWrite, WholeUndo;
    var r;
    ghost var was := Now(disk, dir);
    o, r := UndoFiles(disk, dir, m, begin);
    if o != Done {
      UndoStops(dir.plan, disk.script, m, r, was, Now(disk, dir), o);
      return;
    }
    ghost var middle := Now(disk, dir);
    o := FinishUndo(disk, dir, r, end);
    UndoEnds(dir.plan, disk.script, m, r, end, was, middle, Now(disk, dir), o);
  }

  /** What a failed apply does: undoes itself, flags a failing undo, and raises in any case. */
  method Abort(disk: Disk, dir: TransactionDir, m: Manifest) returns (o: Outcome)
    requires disk.Running() && dir.Valid() && Matches(m.changes, dir.plan) && PlannedOn(disk, dir)
    requires dir.At(Preparing) || dir.At(Committing)
    modifies disk`files, disk`clock, disk`died, disk`log
    modifies dir`restoring, dir`manifest, dir`temporary, dir`history, dir`staged
    ensures disk.Valid() && (disk.died <==> o == Crashed) && dir.Valid() && dir.Failed()
    ensures Aborted(dir.plan, disk.script, old(Now(disk, dir)), Now(disk, dir), o)
  {
    hide FilesUndone, LastWrite, Flagged, Aborted;
    ghost var was := Now(disk, dir);
    var r;
    o, r := UndoFiles(disk, dir, m, RollingBack);
    if o != Done {
      AbortStops(dir.plan, disk.script, m, r, was, Now(disk, dir), o);
      return;
    }
    ghost var middle := Now(disk, dir);
    o := FinishUndo(disk, dir, r, RolledBack);
    if o == Raised {
      ghost var late := Now(disk, dir);
      o := Flag(disk, dir, r);
      AbortFlags(dir.plan, disk.script, m, r, was, middle, late, Now(disk, dir), o);
    } else {
      AbortEnds(dir.plan, disk.script, m, r, was, middle, Now(disk, dir), o);
      o := if o == Done then Raised else o;
    }
  }

  /** First half of an apply: prepares every change and announces the commit. */
  method PreparePhase(disk: Disk, dir: TransactionDir, changes: seq<Change>, m: Manifest)
    returns (o: Outcome, r: Manifest)
    requires disk.Running() && dir.Applying(m) && changes == dir.plan && dir.staged == map[] && dir.manifest == Some(m)
    modifies disk`files, disk`clock, disk`died, disk`log
    modifies dir`backups, dir`staged, dir`manifest, dir`temporary, dir`history
    ensures disk.Valid() && (disk.died <==> o == Crashed) && dir.Applying(r)
    ensures o == Done ==> StagedBetween(changes, dir.staged, 0, |changes|) && BackedUp(changes, dir.backups, |changes|)
    ensures Drift(old(disk.files), disk.files, disk.script) && (Calm(disk.script) ==> disk.files == old(disk.files))
    ensures o == Done ==>
      dir.manifest == Some(r) && r.state == Committing && Stamped(r.changes, 0, |changes|, Prepared)
    ensures old(disk.clock) <= disk.clock <= old(disk.clock) + 8 * |changes| + 3
    ensures o == Done ==>
      !Faulted(disk.script, old(disk.clock), disk.clock) && (!old(dir.temporary) ==> !dir.temporary)
    ensures Calm(disk.script) && AllBefore(old(disk.files), changes) && o == Raised && !old(dir.temporary) ==>
      Faulted(disk.script, old(disk.clock), disk.clock)
    ensures OneFault(disk.script, old(disk.clock)) && !old(dir.temporary) && o == Raised ==> !dir.temporary
    ensures old(UsedUp(disk)) && changes != [] ==>
      o == Crashed && dir.Kept() == old(dir.Kept()) && dir.temporary == old(dir.temporary)
    ensures Calm(disk.script) && AllBefore(old(disk.files), changes) ==>
      && Held(changes, dir.Kept(), disk.files)
      && (old(Runs(disk, 7 * |changes| + 2)) && !old(dir.temporary) ==>
        o == Done && !dir.temporary && disk.clock <= old(disk.clock) + 7 * |changes| + 2)
  {
    hide Held, Calm;
    o, r := PrepareAll(disk, dir, changes, m);
    if o == Done {
      OneFaultLater(disk.script, old(disk.clock), disk.clock);
      o, r := WriteState(disk, dir, r, Committing);
    }
    if Calm(disk.script) && AllBefore(disk.files, changes) {
      HeldWhileApplying(changes, dir.Kept(), disk.files, 0);
    }
  }

  /** The journal says of a prefix of the changes that they are installed; those are, and at most the one after
      them is as well. */
  ghost predicate SaysWhatItDid(plan: seq<Change>, entries: seq<Entry>, files: Files) {
    exists recorded: nat :: recorded <= |plan|
      && Stamped(entries, 0, recorded, Installed) && Stamped(entries, recorded, |plan|, Prepared)
      && (InstalledUpTo(files, plan, recorded) || InstalledUpTo(files, plan, recorded + 1))
  }

  /** Installs every staged file; at each moment the transaction stays recoverable. */
  method CommitStaged(disk: Disk, dir: TransactionDir, changes: seq<Change>, m: Manifest)
    returns (o: Outcome, r: Manifest)
    requires disk.Running() && dir.Applying(m) && changes == dir.plan && PlannedOn(disk, dir)
    requires dir.manifest == Some(m) && Stamped(m.changes, 0, |changes|, Prepared)
    requires StagedBetween(changes, dir.staged, 0, |changes|) && BackedUp(changes, dir.backups, |changes|)
    modifies disk`files, disk`clock, disk`died, disk`log, dir`staged, dir`manifest, dir`temporary, dir`history
    ensures disk.Valid() && (disk.died <==> o == Crashed)
    ensures dir.Applying(r) && r.state == m.state && (o == Done ==> dir.staged == map[])
    ensures dir.manifest.Some? && dir.manifest.value.state == m.state
    ensures o == Done ==> dir.manifest == Some(r) && Stamped(r.changes, 0, |changes|, Installed)
    ensures Calm(disk.script) && AllBefore(old(disk.files), changes) ==>
      SaysWhatItDid(changes, dir.manifest.value.changes, disk.files)
    ensures old(disk.clock) <= disk.clock <= old(disk.clock) + 4 * |changes|
    ensures o == Done ==>
      !Faulted(disk.script, old(disk.clock), disk.clock) && (!old(dir.temporary) ==> !dir.temporary)
    ensures Calm(disk.script) && AllBefore(old(disk.files), changes) && o == Raised && !old(dir.temporary) ==>
      Faulted(disk.script, old(disk.clock), disk.clock)
    ensures OneFault(disk.script, old(disk.clock)) && !old(dir.temporary) && o == Raised ==> !dir.temporary
    ensures DriftOutside(changes, old(disk.files), disk.files, disk.script)
    ensures Calm(disk.script) && AllBefore(old(disk.files), changes) ==>
      && Held(changes, dir.Kept(), disk.files) && (o == Done ==> AllInstalled(disk.files, changes))
      && (old(Runs(disk, 3 * |changes|)) && !old(dir.temporary) ==>
        o == Done && !dir.temporary && disk.clock <= old(disk.clock) + 3 * |changes|)
  {
    ghost var files := disk.files;
    ghost var count, recorded;
    o, r, count, recorded := CommitAll(disk, dir, changes, m);
    if Calm(disk.script) && AllBefore(files, changes) {
      HeldWhileApplying(changes, dir.Kept(), disk.files, count);
    }
  }

  /** Every change is in place: the transaction now awaits verification. */
  method AwaitVerification(disk: Disk, dir: TransactionDir, m: Manifest) returns (o: Outcome, r: Manifest)
    requires disk.Running() && dir.Applying(m) && dir.staged == map[]
    modifies disk`files, disk`clock, disk`died, disk`log, dir`manifest, dir`temporary, dir`history
    ensures disk.Valid() && (disk.died <==> o == Crashed) && dir.Valid() && Matches(r.changes, dir.plan)
    ensures if o == Done then dir.At(AwaitingVerification) else dir.manifest == old(dir.manifest)
    ensures r == m.(state := AwaitingVerification) && (o == Done ==> dir.manifest == Some(r))
    ensures old(disk.clock) <= disk.clock <= old(disk.clock) + 3
    ensures o == Done ==> !dir.temporary && !Faulted(disk.script, old(disk.clock), disk.clock)
    ensures o == Raised && !old(dir.temporary) ==> Faulted(disk.script, old(disk.clock), disk.clock)
    ensures OneFault(disk.script, old(disk.clock)) && !old(dir.temporary) && o == Raised ==> !dir.temporary
    ensures Drift(old(disk.files), disk.files, disk.script) && (Calm(disk.script) ==> disk.files == old(disk.files))
    ensures Calm(disk.script) && old(Held(dir.plan, dir.Kept(), disk.files) && AllInstalled(disk.files, dir.plan)) ==>
      Held(dir.plan, dir.Kept(), disk.files)
    ensures old(Runs(disk, 2)) && !old(dir.temporary) ==>
      o == Done && !dir.temporary && disk.clock <= old(disk.clock) + 2
  {
    o, r := WriteState(disk, dir, m, AwaitingVerification);
  }

  /** Second half of an apply: commits every change; at the end they await verification. */
  method CommitPhase(disk: Disk, dir: TransactionDir, changes: seq<Change>, m: Manifest)
    returns (o: Outcome, r: Manifest)
    requires disk.Running() && dir.Applying(m) && changes == dir.plan && PlannedOn(disk, dir)
    requires dir.manifest == Some(m) && m.state == Committing && Stamped(m.changes, 0, |changes|, Prepared)
    requires StagedBetween(changes, dir.staged, 0, |changes|) && BackedUp(changes, dir.backups, |changes|)
    modifies disk`files, disk`clock, disk`died, disk`log, dir`staged, dir`manifest, dir`temporary, dir`history
    ensures disk.Valid() && (disk.died <==> o == Crashed) && dir.Valid() && Matches(r.changes, changes)
    ensures if o == Done then dir.At(AwaitingVerification) else dir.At(Committing)
    ensures o == Done ==> Stamped(dir.manifest.value.changes, 0, |changes|, Installed)
    ensures old(disk.clock) <= disk.clock <= old(disk.clock) + 4 * |changes| + 3
    ensures o == Done ==>
      !Faulted(disk.script, old(disk.clock), disk.clock) && (!old(dir.temporary) ==> !dir.temporary)
    ensures Calm(disk.script) && AllBefore(old(disk.files), changes) && o == Raised && !old(dir.temporary) ==>
      Faulted(disk.script, old(disk.clock), disk.clock)
    ensures OneFault(disk.script, old(disk.clock)) && !old(dir.temporary) && o == Raised ==> !dir.temporary
    ensures DriftOutside(changes, old(disk.files), disk.files, disk.script)
    ensures Calm(disk.script) && AllBefore(old(disk.files), changes) ==>
      && Held(changes, dir.Kept(), disk.files)
      && (old(Runs(disk, 3 * |changes| + 2)) && !old(dir.temporary) ==>
        o == Done && !dir.temporary && disk.clock <= old(disk.clock) + 3 * |changes| + 2)
  {
    o, r := CommitStaged(disk, dir, changes, m);
    if o == Done {
      OneFaultLater(disk.script, old(disk.clock), disk.clock);
      o, r := AwaitVerification(disk, dir, r);
    }
  }

  /** Both halves of an apply. */
  method Advance(disk: Disk, dir: TransactionDir, changes: seq<Change>, m: Manifest)
    returns (o: Outcome, r: Manifest)
    requires disk.Running() && dir.Applying(m) && changes == dir.plan && PlannedOn(disk, dir) && dir.staged == map[]
    requires dir.manifest == Some(m)
    modifies disk`files, disk`clock, disk`died, disk`log
    modifies dir`backups, dir`staged, dir`manifest, dir`temporary, dir`history
    ensures disk.Valid() && (disk.died <==> o == Crashed) && dir.Valid() && Matches(r.changes, changes)
    ensures if o == Done then dir.At(AwaitingVerification) else dir.At(Preparing) || dir.At(Committing)
    ensures o == Done ==> Stamped(dir.manifest.value.changes, 0, |changes|, Installed)
    ensures old(disk.clock) <= disk.clock <= old(disk.clock) + 12 * |changes| + 6
    ensures o == Done ==> !Faulted(disk.script, old(disk.clock), disk.clock)
    ensures Calm(disk.script) && AllBefore(old(disk.files), changes) && o == Raised && !old(dir.temporary) ==>
      Faulted(disk.script, old(disk.clock), disk.clock)
    ensures OneFault(disk.script, old(disk.clock)) && !old(dir.temporary) && o == Raised ==> !dir.temporary
    ensures old(UsedUp(disk)) && changes != [] ==>
      && o == Crashed && dir.Kept() == old(dir.Kept()) && dir.temporary == old(dir.temporary)
      && (Calm(disk.script) ==> disk.files == old(disk.files))
    ensures DriftOutside(changes, old(disk.files), disk.files, disk.script)
    ensures Calm(disk.script) && AllBefore(old(disk.files), changes) ==>
      && Held(changes, dir.Kept(), disk.files)
      && (old(Runs(disk, 10 * |changes| + 4)) && !old(dir.temporary) ==>
        o == Done && !dir.temporary && disk.clock <= old(disk.clock) + 10 * |changes| + 4)
  {
    hide Held, Calm, Stamped;
    o, r := PreparePhase(disk, dir, changes, m);
    if o == Done {
      OneFaultLater(disk.script, old(disk.clock), disk.clock);
      o, r := CommitPhase(disk, dir, changes, r);
    }
  }

  /** An apply; a failure in either half undoes the transaction. An I/O error that stays the only one, with
      nobody interfering, leaves it rolled back. */
  method Perform(disk: Disk, dir: TransactionDir, changes: seq<Change>, m: Manifest) returns (o: Outcome)
    requires disk.Running() && dir.Applying(m) && changes == dir.plan && PlannedOn(disk, dir) && dir.staged == map[]
    requires dir.manifest == Some(m)
    modifies disk`files, disk`clock, disk`died, disk`log
    modifies dir`backups, dir`staged, dir`restoring, dir`manifest, dir`temporary, dir`history
    ensures disk.Valid() && (disk.died <==> o == Crashed) && dir.Valid()
    ensures if o == Done then dir.At(AwaitingVerification) else dir.Failed()
    ensures o == Done ==> Stamped(dir.manifest.value.changes, 0, |changes|, Installed)
    ensures old(disk.clock) <= disk.clock
    ensures o == Done ==> !Faulted(disk.script, old(disk.clock), disk.clock)
    ensures Calm(disk.script) && AllBefore(old(disk.files), changes) && OneFault(disk.script, old(disk.clock)) ==>
      |disk.script| >= old(disk.clock) + 19 * |changes| + 10 && !old(dir.temporary) ==>
        o == Done || (o == Raised && dir.At(RolledBack) && Faulted(disk.script, old(disk.clock), disk.clock))
    ensures old(UsedUp(disk)) && changes != [] ==>
      && o == Crashed && dir.Kept() == old(dir.Kept()) && dir.temporary == old(dir.temporary)
      && (Calm(disk.script) ==> disk.files == old(disk.files))
    ensures DriftOutside(changes, old(disk.files), disk.files, disk.script)
    ensures Calm(disk.script) && AllBefore(old(disk.files), changes) ==>
      && Held(changes, dir.Kept(), disk.files)
      && (old(Runs(disk, 10 * |changes| + 4)) && !old(dir.temporary) ==>
        o == Done && !dir.temporary && disk.clock <= old(disk.clock) + 10 * |changes| + 4)
  {
    hide Held, Stamped;
    var r;
    o, r := Advance(disk, dir, changes, m);
    if o == Raised {
      if OneFault(disk.script, old(disk.clock)) && Faulted(disk.script, old(disk.clock), disk.clock) {
        FaultSpent(disk.script, old(disk.clock), disk.clock);
      }
      o := Abort(disk, dir, r);
    }
  }

  /** Checks all preconditions and makes the transaction's directory with its first manifest. */
  method OpenJournal(disk: Disk, changes: seq<Change>) returns (o: Outcome, dir: TransactionDir?, m: Manifest)
    requires disk.Running() && DistinctPaths(changes)
    modifies disk`files, disk`clock, disk`died, disk`log, disk`planned
    ensures disk.Valid() && (disk.died <==> o == Crashed)
    ensures old(disk.planned) <= disk.planned && m == Manifest(Preparing, PlannedEntries(changes))
    ensures dir != null ==>
      && fresh(dir) && dir.Valid() && dir.plan == changes && PlannedOn(disk, dir)
      && dir.Kept() == Shelf(if o == Done then Some(m) else None, map[], map[], map[])
    ensures o == Done ==> dir != null && !dir.temporary
    ensures Drift(old(disk.files), disk.files, disk.script) && (Calm(disk.script) ==> disk.files == old(disk.files))
    ensures Calm(disk.script) && dir != null ==> AllBefore(disk.files, changes)
    ensures old(disk.clock) <= disk.clock <= old(disk.clock) + |changes| + 4
    ensures o == Done ==> !Faulted(disk.script, old(disk.clock), disk.clock)
    ensures Calm(disk.script) && AllBefore(old(disk.files), changes) && o == Raised ==>
      Faulted(disk.script, old(disk.clock), disk.clock)
    ensures OneFault(disk.script, old(disk.clock)) && dir != null && o == Raised ==> !dir.temporary
    ensures Calm(disk.script) && AllBefore(old(disk.files), changes) && old(Runs(disk, |changes| + 3)) ==>
      o == Done && disk.clock == old(disk.clock) + |changes| + 3
  {
    hide Explains, DistinctPaths;
    dir := null;
    m := Manifest(Preparing, PlannedEntries(changes));
    o := VerifyPreconditions(disk, changes);
    if o != Done { return; }
    o := disk.Tick();
    if o != Done { return; }
    dir := new TransactionDir(changes);
    disk.Plan(changes);
    OneFaultLater(disk.script, old(disk.clock), disk.clock);
    o := AtomicJson(disk, dir, m);
  }

  /** Applies validated changes: checks every target, opens a transaction directory, writes the first
      manifest, prepares and commits. Without a directory nothing has been written at all. */
  method ApplyChanges(disk: Disk, changes: seq<Change>) returns (o: Outcome, dir: TransactionDir?)
    requires disk.Running() && DistinctPaths(changes)
    modifies disk`files, disk`clock, disk`died, disk`log, disk`planned
    ensures disk.Valid() && (disk.died <==> o == Crashed) && old(disk.planned) <= disk.planned
    ensures dir != null ==> fresh(dir) && dir.Valid() && dir.plan == changes && PlannedOn(disk, dir)
    ensures o == Done ==> dir != null && dir.At(AwaitingVerification)
    ensures o != Done && dir != null ==> dir.manifest == None || dir.Failed()
    ensures DriftOutside(changes, old(disk.files), disk.files, disk.script)
    ensures Calm(disk.script) ==>
      if dir == null then disk.files == old(disk.files)
      else AllBefore(old(disk.files), changes) && Held(changes, dir.Kept(), disk.files)
    ensures old(disk.clock) <= disk.clock
    ensures o == Done ==> Stamped(dir.manifest.value.changes, 0, |changes|, Installed)
    ensures o == Done ==> !Faulted(disk.script, old(disk.clock), disk.clock)
    ensures Calm(disk.script) && AllBefore(old(disk.files), changes) && OneFault(disk.script, old(disk.clock)) ==>
      |disk.script| >= old(disk.clock) + 20 * |changes| + 14 ==>
        || o == Done
        || (&& o == Raised && Faulted(disk.script, old(disk.clock), disk.clock)
            && (dir == null || dir.manifest.None? || dir.At(RolledBack)))
    ensures Calm(disk.script) && AllBefore(old(disk.files), changes) && old(DiesAfter(disk, |changes| + 3)) ==>
      changes != [] ==>
      && o == Crashed && dir != null && !dir.temporary && disk.files == old(disk.files)
      && dir.Kept() == Shelf(Some(Manifest(Preparing, PlannedEntries(changes))), map[], map[], map[])
    ensures Calm(disk.script) && AllBefore(old(disk.files), changes) && old(Runs(disk, 11 * |changes| + 7)) ==>
      o == Done && !dir.temporary && disk.clock <= old(disk.clock) + 11 * |changes| + 7
  {
    var m;
    o, dir, m := OpenJournal(disk, changes);
    if o == Done {
      OneFaultLater(disk.script, old(disk.clock), disk.clock);
      o := Perform(disk, dir, changes, m);
    }
  }

  /** Every target is read and must hold its candidate. */
  method VerifyInstalled(disk: Disk, changes: seq<Entry>, ghost plan: seq<Change>) returns (o: Outcome)
    requires disk.Running() && Matches(changes, plan)
    modifies disk`files, disk`clock, disk`died, disk`log
    ensures disk.Valid() && (disk.died <==> o == Crashed)
    ensures Drift(old(disk.files), disk.files, disk.script) && (Calm(disk.script) ==> disk.files == old(disk.files))
    ensures o == Done ==> InstalledIfUntouched(disk.files, plan, |plan|, disk.script)
    ensures old(disk.clock) <= disk.clock <= old(disk.clock) + |plan|
    ensures old(Runs(disk, |plan|)) && Calm(disk.script) ==>
      o == if AllInstalled(disk.files, plan) then Done else Raised
    ensures o == Done ==> disk.clock == old(disk.clock) + |plan| && !Faulted(disk.script, old(disk.clock), disk.clock)
    ensures Calm(disk.script) && AllInstalled(disk.files, plan) && o == Raised ==>
      Faulted(disk.script, old(disk.clock), disk.clock)
  {
    o := Done;
    for i := 0 to |changes|
      invariant disk.Running() && o == Done
      invariant Drift(old(disk.files), disk.files, disk.script) && (Calm(disk.script) ==> disk.files == old(disk.files))
      invariant InstalledIfUntouched(disk.files, plan, i, disk.script)
      invariant Calm(disk.script) ==>
        forall j :: 0 <= j < i ==> Get(disk.files, plan[j].path) == Some(plan[j].candidate)
      invariant disk.clock == old(disk.clock) + i && !Faulted(disk.script, old(disk.clock), disk.clock)
    {
      ghost var files := disk.files;
      o := disk.Tick();
      InstalledStays(files, disk.files, plan, i, disk.script);
      if o != Done { return; }
      assert Describes(changes[i], plan[i]);
      if DigestOf(Get(disk.files, changes[i].path)) != Some(changes[i].candidateSha256) { return Raised; }
    }
  }

  /** Commits a transaction whose installed files were verified; anything else is refused. */
  method Finalize(disk: Disk, dir: TransactionDir, verified: bool) returns (o: Outcome)
    requires disk.Running() && dir.Valid()
    modifies disk`files, disk`clock, disk`died, disk`log, dir`manifest, dir`temporary, dir`history
    ensures disk.Valid() && (disk.died <==> o == Crashed) && dir.Valid()
    ensures old(disk.clock) <= disk.clock <= old(disk.clock) + |dir.plan| + 3
    ensures Drift(old(disk.files), disk.files, disk.script)
    ensures o == Done ==>
      && old(dir.At(AwaitingVerification)) && verified && dir.At(Committed)
      && InstalledIfUntouched(disk.files, dir.plan, |dir.plan|, disk.script)
    ensures o != Done ==> dir.manifest == old(dir.manifest) && dir.history == old(dir.history)
    ensures Calm(disk.script) && old(Runs(disk, |dir.plan| + 2)) && !old(dir.temporary) ==>
      o == if verified && old(dir.At(AwaitingVerification) && AllInstalled(disk.files, dir.plan)) then Done else Raised
    ensures o == Done ==> !Faulted(disk.script, old(disk.clock), disk.clock)
    ensures Calm(disk.script) && old(Held(dir.plan, dir.Kept(), disk.files)) ==>
      && Held(dir.plan, dir.Kept(), disk.files)
      && (old(Runs(disk, |dir.plan| + 2)) && !old(dir.temporary) && old(dir.At(AwaitingVerification)) ==>
        o == (if verified then Done else Raised) && !dir.temporary)
  {
    if dir.manifest.None? || dir.manifest.value.state != AwaitingVerification || !verified {
      return Raised;
    }
    var m := dir.manifest.value;
    o := VerifyInstalled(disk, m.changes, dir.plan);
    if o != Done { return; }
    ghost var files := disk.files;
    o, m := WriteState(disk, dir, m, Committed);
    InstalledStays(files, disk.files, dir.plan, |dir.plan|, disk.script);
  }

  /** Rolls a transaction back, unless it has already ended. */
  method Rollback(disk: Disk, dir: TransactionDir) returns (o: Outcome)
    requires disk.Running() && dir.Valid() && PlannedOn(disk, dir)
    modifies disk`files, disk`clock, disk`died, disk`log
    modifies dir`restoring, dir`manifest, dir`temporary, dir`history, dir`staged
    ensures disk.Valid() && (disk.died <==> o == Crashed) && dir.Valid()
    ensures old(disk.clock) <= disk.clock
    ensures DriftOutside(dir.plan, old(disk.files), disk.files, disk.script)
    ensures o == Done ==> dir.At(RolledBack) && NoneReplaced(disk.files, dir.plan, 0, disk.script)
    ensures !old(Pending(dir)) ==> o == Raised && dir.manifest == old(dir.manifest) && disk.files == old(disk.files)
    ensures old(Pending(dir)) && o != Done ==> Pending(dir)
    ensures Calm(disk.script) && o == Done ==> disk.files == Restored(old(disk.files), dir.plan)
    ensures Calm(disk.script) && old(Held(dir.plan, dir.Kept(), disk.files)) ==>
      && Held(dir.plan, dir.Kept(), disk.files)
      && (old(Runs(disk, 7 * |dir.plan| + 4)) && !old(dir.temporary) && old(Pending(dir)) ==> o == Done)
    ensures Calm(disk.script) && old(Pending(dir)) ==>
      && StaysStuckIn(dir.plan, old(dir.manifest.value.changes), dir.manifest, dir.backups, old(disk.files), disk.files)
      && (o == Done ==>
           && old(Undoable(dir, disk.files))
           && Marked(dir.plan, old(dir.manifest.value.changes), dir.manifest.value.changes, disk.files, 0))
      && (old(Runs(disk, 7 * |dir.plan| + 4)) ==>
           if old(!dir.temporary && Undoable(dir, disk.files)) then o == Done && !dir.temporary
           else o == Raised && (if old(dir.temporary) then !dir.temporary else dir.At(RecoveryRequired)))
    ensures o == Done ==> !Faulted(disk.script, old(disk.clock), disk.clock)
    ensures Faultless(disk.script, old(disk.clock)) && !old(dir.temporary) && old(Pending(dir)) && o == Raised ==>
      dir.At(RecoveryRequired)
  {
    if !Pending(dir) {
      return Raised;
    }
    if Held(dir.plan, dir.Kept(), disk.files) {
      HeldCanUndo(dir.plan, dir.Kept(), dir.manifest.value.changes, disk.files);
    }
    o := Undo(disk, dir, dir.manifest.value, RollingBack, RolledBack);
  }

  /** One step of the recovery loop: a directory without manifest or with an ended journal is skipped. */
  method RecoverOne(disk: Disk, dir: TransactionDir) returns (o: Outcome)
    requires disk.Running() && dir.Valid() && PlannedOn(disk, dir)
    modifies disk`files, disk`clock, disk`died, disk`log
    modifies dir`restoring, dir`manifest, dir`temporary, dir`history, dir`staged
    ensures disk.Valid() && (disk.died <==> o == Crashed) && dir.Valid()
    ensures DriftOutside(dir.plan, old(disk.files), disk.files, disk.script)
    ensures !old(Pending(dir)) ==>
      o == Done && disk.files == old(disk.files) && dir.manifest == old(dir.manifest) && disk.clock == old(disk.clock)
    ensures old(disk.clock) <= disk.clock
    ensures Calm(disk.script) && old(Pending(dir)) ==>
      StaysStuckIn(dir.plan, old(dir.manifest.value.changes), dir.manifest, dir.backups, old(disk.files), disk.files)
    ensures old(Pending(dir)) ==>
      && (if o == Done then dir.At(Recovered) && NoneReplaced(disk.files, dir.plan, 0, disk.script) else Pending(dir))
      && (Calm(disk.script) && o == Done ==>
           && disk.files == Restored(old(disk.files), dir.plan) && old(Undoable(dir, disk.files))
           && Marked(dir.plan, old(dir.manifest.value.changes), dir.manifest.value.changes, disk.files, 0))
    ensures o == Done ==> !Faulted(disk.script, old(disk.clock), disk.clock)
    ensures Calm(disk.script) && old(Held(dir.plan, dir.Kept(), disk.files)) ==>
      Held(dir.plan, dir.Kept(), disk.files) && (old(Pending(dir)) ==> old(Undoable(dir, disk.files)))
    ensures Calm(disk.script) && old(Runs(disk, 7 * |dir.plan| + 4)) && old(Pending(dir)) ==>
      if old(!dir.temporary && Undoable(dir, disk.files))
      then o == Done && !dir.temporary && disk.clock <= old(disk.clock) + 7 * |dir.plan| + 4
      else o == Raised && (if old(dir.temporary) then !dir.temporary else dir.At(RecoveryRequired))
    ensures |dir.plan| == 1 && old(Pending(dir) && Overtaken(disk, dir, 0, 2, 9)) && !old(dir.temporary) ==>
      o == Done && Before(disk.files, dir.plan[0]) && disk.clock == old(disk.clock) + 11
    ensures Faultless(disk.script, old(disk.clock)) && !old(dir.temporary) && o == Raised ==> dir.At(RecoveryRequired)
  {
    if !Pending(dir) {
      return Done;
    }
    if Held(dir.plan, dir.Kept(), disk.files) {
      HeldCanUndo(dir.plan, dir.Kept(), dir.manifest.value.changes, disk.files);
    }
    o := Undo(disk, dir, dir.manifest.value, Recovering, Recovered);
  }
}
