/** What undoing a transaction comes to, step by step, from one moment to a later one. */
module UndoModel {
  import opened Basics
  import opened JournalModel

  /** Undoing the i-th entry would not raise: its target is as before, or has the candidate with a good backup
      of what was before, or has content that nobody knows while the entry is not recorded as installed. */
  predicate CanUndo(change: Change, e: Entry, i: nat, backups: map<nat, Content>, files: Files) {
    var now := Get(files, change.path);
    || now == change.previous
    || (if now == Some(change.candidate) then
          change.previous.Some? ==> i in backups && backups[i] == change.previous.value
        else e.status != Installed)
  }

  ghost predicate CanUndoAll(plan: seq<Change>, entries: seq<Entry>, backups: map<nat, Content>, files: Files) {
    |entries| == |plan| && forall i :: 0 <= i < |plan| ==> CanUndo(plan[i], entries[i], i, backups, files)
  }

  ghost predicate CanUndoFrom(plan: seq<Change>, entries: seq<Entry>, backups: map<nat, Content>, files: Files,
      from: nat)
  {
    |entries| == |plan| && forall i :: from <= i < |plan| ==> CanUndo(plan[i], entries[i], i, backups, files)
  }

  /** An entry that cannot be undone still cannot, and its target is as it was. */
  ghost predicate StaysStuck(plan: seq<Change>, m: seq<Entry>, r: seq<Entry>, backups: map<nat, Content>, before: Files,
      after: Files)
  {
    && |m| == |r| == |plan|
    && forall k :: 0 <= k < |plan| && !CanUndo(plan[k], m[k], k, backups, before) ==>
         !CanUndo(plan[k], r[k], k, backups, after) && Get(after, plan[k].path) == Get(before, plan[k].path)
  }

  lemma StuckTarget(plan: seq<Change>, m: seq<Entry>, r: seq<Entry>, backups: map<nat, Content>, before: Files,
      after: Files, k: nat)
    requires StaysStuck(plan, m, r, backups, before, after)
    requires k < |plan| && !CanUndo(plan[k], m[k], k, backups, before)
    ensures Get(after, plan[k].path) == Get(before, plan[k].path)
  {
  }

  lemma StuckAtFirst(plan: seq<Change>, m: seq<Entry>, backups: map<nat, Content>, files: Files)
    requires |m| == |plan|
    ensures StaysStuck(plan, m, m, backups, files, files)
  {
  }

  /** Nor can it by what the journal on the disk says. */
  ghost predicate StaysStuckIn(plan: seq<Change>, m: seq<Entry>, journal: Option<Manifest>, backups: map<nat, Content>,
      before: Files, after: Files)
  {
    journal.Some? && StaysStuck(plan, m, journal.value.changes, backups, before, after)
  }

  lemma StuckTogether(plan: seq<Change>, m: seq<Entry>, journal: Option<Manifest>, backups: map<nat, Content>,
      before: Files, after: Files)
    requires !CanUndoAll(plan, m, backups, before) && |m| == |plan|
    requires StaysStuckIn(plan, m, journal, backups, before, after)
    ensures !CanUndoAll(plan, journal.value.changes, backups, after)
  {
    var k :| 0 <= k < |plan| && !CanUndo(plan[k], m[k], k, backups, before);
    assert !CanUndo(plan[k], journal.value.changes[k], k, backups, after);
  }

  lemma HeldCanUndo(plan: seq<Change>, shelf: Shelf, entries: seq<Entry>, files: Files)
    requires Held(plan, shelf, files) && |entries| == |plan|
    ensures CanUndoAll(plan, entries, shelf.backups, files)
  {
    forall i | 0 <= i < |plan| ensures CanUndo(plan[i], entries[i], i, shelf.backups, files) {
      assert HeldAt(plan, shelf, files, i);
    }
  }

  /** The entries from `i` on have been gone through, last first; `r` is what has become of the entries `m`. */
  ghost predicate WentDownTo(plan: seq<Change>, m: seq<Entry>, r: seq<Entry>, before: Files, now: Files,
      script: seq<Event>, i: nat)
  {
    && |m| == |r| == |plan| && i <= |plan| && (forall j :: 0 <= j < i ==> r[j] == m[j])
    && DriftOutside(plan, before, now, script) && NoneReplaced(now, plan, i, script)
    && (Calm(script) ==> RestoredDownTo(before, now, plan, i))
  }

  lemma WentFurther(plan: seq<Change>, m: seq<Entry>, r: seq<Entry>, next: seq<Entry>, before: Files, middle: Files,
      after: Files, script: seq<Event>, i: nat)
    requires WentDownTo(plan, m, r, before, middle, script, i + 1) && DistinctPaths(plan) && |next| == |r|
    requires forall j :: 0 <= j < |r| && j != i ==> next[j] == r[j]
    requires DriftExcept(plan[i].path, middle, after, script)
    requires NeverEdits(script, plan[i].path, Some(plan[i].candidate)) ==> !Replaced(after, plan[i])
    requires Calm(script) ==> SameExcept(plan[i].path, middle, after)
    requires Calm(script) ==> Get(after, plan[i].path) == RestoredContent(middle, plan[i])
    ensures WentDownTo(plan, m, next, before, after, script, i)
  {
    DriftFurther(plan, i, before, middle, after, script);
    NoneReplacedNext(plan, i, middle, after, script);
    if Calm(script) {
      RestoredNext(plan, i, before, middle, after);
    }
  }

  lemma StillToUndo(plan: seq<Change>, m: seq<Entry>, r: seq<Entry>, backups: map<nat, Content>, before: Files,
      now: Files, script: seq<Event>, i: nat)
    requires WentDownTo(plan, m, r, before, now, script, i + 1) && Calm(script)
    ensures CanUndo(plan[i], r[i], i, backups, now) <==> CanUndo(plan[i], m[i], i, backups, before)
  {
  }

  /** The files, how many operations there were, and what the transaction keeps. */
  datatype Moment = Moment(files: Files, clock: nat, shelf: Shelf, temporary: bool)

  /** A restore of a replaced file will look at it after `wait` operations, and whatever other programs do
      they do in the three operations between that look and the end of the rename. */
  ghost predicate OvertakenIn(script: seq<Event>, plan: seq<Change>, at: Moment, i: nat, wait: nat, steps: nat) {
    && i < |plan| && Replaced(at.files, plan[i]) && plan[i].previous.Some?
    && i in at.shelf.backups && at.shelf.backups[i] == plan[i].previous.value
    && Enough(script, at.clock, wait + steps)
    && forall k :: at.clock <= k < at.clock + wait + steps ==>
         script[k].edits == map[] || at.clock + wait < k < at.clock + wait + 4
  }

  /** From `from` on, an entry says that it was undone exactly if its target is as before, and nothing else has
      changed in it. */
  predicate Marked(plan: seq<Change>, m: seq<Entry>, r: seq<Entry>, now: Files, from: nat)
    requires |m| == |r| == |plan|
  {
    forall j :: from <= j < |plan| ==> r[j] == if Before(now, plan[j]) then m[j].(status := Undone) else m[j]
  }

  /** What one more entry comes to. */
  ghost predicate OneEntry(plan: seq<Change>, script: seq<Event>, r: seq<Entry>, next: seq<Entry>, middle: Moment,
      now: Moment, i: nat, o: Outcome)
  {
    && i < |plan| == |r| == |next| && (forall j :: 0 <= j < |r| && j != i ==> next[j] == r[j])
    && (o == Done ==> !Faulted(script, middle.clock, now.clock))
    && middle.clock <= now.clock && now.shelf.backups == middle.shelf.backups
    && (now.shelf.manifest == middle.shelf.manifest
        || (now.shelf.manifest.Some? && now.shelf.manifest.value.changes == next))
    && DriftExcept(plan[i].path, middle.files, now.files, script)
    && (o == Done && NeverEdits(script, plan[i].path, Some(plan[i].candidate)) ==> !Replaced(now.files, plan[i]))
    && (Calm(script) ==>
         && SameExcept(plan[i].path, middle.files, now.files)
         && (o == Done ==> Get(now.files, plan[i].path) == RestoredContent(middle.files, plan[i]))
         && (o == Done ==> next[i] == if Before(now.files, plan[i]) then r[i].(status := Undone) else r[i])
         && (CanUndo(plan[i], r[i], i, middle.shelf.backups, middle.files) && !middle.temporary && o == Raised ==>
              Faulted(script, middle.clock, now.clock))
         && (!CanUndo(plan[i], r[i], i, middle.shelf.backups, middle.files) ==>
              o != Done && next == r && now.files == middle.files)
         && (Held(plan, middle.shelf, middle.files) ==> Held(plan, now.shelf, now.files)))
    && (Calm(script) && Enough(script, middle.clock, 6) && !middle.temporary ==>
         && o == (if CanUndo(plan[i], r[i], i, middle.shelf.backups, middle.files) then Done else Raised)
         && !now.temporary && now.clock <= middle.clock + 6)
    && (OvertakenIn(script, plan, middle, i, 0, 6) && !middle.temporary ==>
         o == Done && Before(now.files, plan[i]) && now.clock == middle.clock + 6 && !now.temporary)
    && (OneFault(script, middle.clock) && !middle.temporary ==> o == Crashed || !now.temporary)
  }

  /** Neither in memory nor on the disk has anything changed of an entry that cannot be undone. */
  ghost predicate StuckIn(plan: seq<Change>, m: seq<Entry>, r: seq<Entry>, was: Moment, now: Moment) {
    && StaysStuck(plan, m, r, was.shelf.backups, was.files, now.files)
    && (was.shelf.manifest.Some? && was.shelf.manifest.value.changes == m ==>
         && now.shelf.manifest.Some?
         && StaysStuck(plan, m, now.shelf.manifest.value.changes, was.shelf.backups, was.files, now.files))
  }

  /** What the file operations of undoing one entry come to. */
  ghost predicate Examined(plan: seq<Change>, script: seq<Event>, r: seq<Entry>, was: Moment, now: Moment, i: nat,
      o: Outcome, v: Verdict)
  {
    && i < |plan| == |r| && was.clock <= now.clock <= was.clock + 4 && now.temporary == was.temporary
    && now.shelf.manifest == was.shelf.manifest && now.shelf.backups == was.shelf.backups
    && DriftExcept(plan[i].path, was.files, now.files, script)
    && (o == Done ==> !Faulted(script, was.clock, now.clock))
    && (o == Done && v != LeftAlone ==> Before(now.files, plan[i]))
    && (o == Done && v == LeftAlone ==>
         Get(now.files, plan[i].path) != Some(plan[i].candidate) && r[i].status != Installed)
    && (Calm(script) ==>
         && SameExcept(plan[i].path, was.files, now.files)
         && (o == Done ==> Get(now.files, plan[i].path) == RestoredContent(was.files, plan[i]))
         && (o == Done ==> (v == LeftAlone <==> !Before(now.files, plan[i])))
         && (Held(plan, was.shelf, was.files) ==> Held(plan, now.shelf, now.files))
         && (!CanUndo(plan[i], r[i], i, was.shelf.backups, was.files) ==> o != Done && now.files == was.files)
         && (CanUndo(plan[i], r[i], i, was.shelf.backups, was.files) && o == Raised ==>
              Faulted(script, was.clock, now.clock))
         && (Enough(script, was.clock, 4) ==>
              o == if CanUndo(plan[i], r[i], i, was.shelf.backups, was.files) then Done else Raised))
    && (OvertakenIn(script, plan, was, i, 0, 4) ==>
         o == Done && v == PutBack && Before(now.files, plan[i]) && now.clock == was.clock + 4)
  }

  /** What recording that one was put back comes to. */
  ghost predicate Recorded(plan: seq<Change>, script: seq<Event>, r: seq<Entry>, was: Moment, now: Moment, o: Outcome) {
    && Drift(was.files, now.files, script) && (Calm(script) ==> now.files == was.files)
    && was.clock <= now.clock && now.shelf.backups == was.shelf.backups
    && (now.shelf.manifest == was.shelf.manifest
        || (now.shelf.manifest.Some? && now.shelf.manifest.value.changes == r))
    && (Calm(script) && Held(plan, was.shelf, was.files) ==> Held(plan, now.shelf, now.files))
    && (o == Done ==> !now.temporary && !Faulted(script, was.clock, now.clock))
    && (o == Raised && !was.temporary ==> Faulted(script, was.clock, now.clock))
    && (OneFault(script, was.clock) && !was.temporary && o == Raised ==> !now.temporary)
    && (Enough(script, was.clock, 2) && !was.temporary ==>
         o == Done && !now.temporary && now.clock <= was.clock + 2)
    && (QuietAt(script, was.clock, 2) && !was.temporary ==> now.clock == was.clock + 2 && now.files == was.files)
  }

  lemma OvertakenBriefly(script: seq<Event>, plan: seq<Change>, at: Moment, i: nat)
    requires OvertakenIn(script, plan, at, i, 0, 6)
    ensures OvertakenIn(script, plan, at, i, 0, 4) && QuietAt(script, at.clock + 4, 2)
  {
  }

  /** One entry, when nothing is recorded on the disk. */
  lemma EntryExamined(plan: seq<Change>, script: seq<Event>, r: seq<Entry>, next: seq<Entry>, was: Moment, now: Moment,
      i: nat, o: Outcome, v: Verdict)
    requires Examined(plan, script, r, was, now, i, o, v) && (o == Done ==> v != PutBack)
    requires next == if o == Done && v == AlreadyUndone then r[i := r[i].(status := Undone)] else r
    ensures OneEntry(plan, script, r, next, was, now, i, o)
  {
    if OvertakenIn(script, plan, was, i, 0, 6) {
      OvertakenBriefly(script, plan, was, i);
    }
  }

  /** One entry that was put back and is recorded. */
  lemma EntryRecorded(plan: seq<Change>, script: seq<Event>, r: seq<Entry>, next: seq<Entry>, was: Moment,
      middle: Moment, now: Moment, i: nat, o: Outcome)
    requires Examined(plan, script, r, was, middle, i, Done, PutBack) && next == r[i := r[i].(status := Undone)]
    requires Recorded(plan, script, next, middle, now, o)
    ensures OneEntry(plan, script, r, next, was, now, i, o)
  {
    DriftThen(plan[i], was.files, middle.files, now.files, script);
    OneFaultLater(script, was.clock, middle.clock);
    if OvertakenIn(script, plan, was, i, 0, 6) {
      OvertakenBriefly(script, plan, was, i);
    }
  }

  lemma StuckNext(plan: seq<Change>, script: seq<Event>, m: seq<Entry>, r: seq<Entry>, next: seq<Entry>, was: Moment,
      middle: Moment, now: Moment, i: nat, o: Outcome)
    requires StuckIn(plan, m, r, was, middle) && OneEntry(plan, script, r, next, middle, now, i, o)
    requires Calm(script) && DistinctPaths(plan) && middle.shelf.backups == was.shelf.backups && m[i] == r[i]
    ensures StuckIn(plan, m, next, was, now)
  {
    forall k | 0 <= k < |plan| && !CanUndo(plan[k], m[k], k, was.shelf.backups, was.files)
      ensures !CanUndo(plan[k], next[k], k, was.shelf.backups, now.files)
      ensures Get(now.files, plan[k].path) == Get(middle.files, plan[k].path)
    {
      if k != i {
        assert plan[k].path != plan[i].path;
      }
    }
  }

  lemma OvertakenEarly(script: seq<Event>, plan: seq<Change>, at: Moment, i: nat)
    requires OvertakenIn(script, plan, at, i, 2, 9)
    ensures OvertakenIn(script, plan, at, i, 2, 7) && QuietAt(script, at.clock + 9, 2)
  {
  }

  /** What holds while the entries are gone through, since `was`, down to the i-th. */
  ghost predicate Going(plan: seq<Change>, script: seq<Event>, m: seq<Entry>, r: seq<Entry>, was: Moment, now: Moment,
      i: nat)
  {
    && WentDownTo(plan, m, r, was.files, now.files, script, i)
    && was.clock <= now.clock && now.shelf.backups == was.shelf.backups && !Faulted(script, was.clock, now.clock)
    && (Calm(script) ==> Marked(plan, m, r, now.files, i))
    && (Calm(script) ==> StuckIn(plan, m, r, was, now) && CanUndoFrom(plan, m, was.shelf.backups, was.files, i))
    && (Calm(script) && Held(plan, was.shelf, was.files) ==> Held(plan, now.shelf, now.files))
    && (Calm(script) && Enough(script, was.clock, 6 * |plan|) && !was.temporary ==>
         !now.temporary && now.clock <= was.clock + 6 * (|plan| - i))
    && (|plan| == 1 && OvertakenIn(script, plan, was, 0, 0, 6) && !was.temporary ==>
         && !now.temporary
         && if i == 1 then OvertakenIn(script, plan, now, 0, 0, 6) && now.clock == was.clock
            else now.clock == was.clock + 6 && Before(now.files, plan[0]))
    && (OneFault(script, was.clock) && !was.temporary ==> !now.temporary)
  }

  /** What going through all entries comes to. */
  ghost predicate AllEntries(plan: seq<Change>, script: seq<Event>, m: seq<Entry>, r: seq<Entry>, was: Moment,
      now: Moment, o: Outcome)
  {
    && DriftOutside(plan, was.files, now.files, script) && was.clock <= now.clock
    && (o == Done ==> NoneReplaced(now.files, plan, 0, script))
    && (o == Done ==> !Faulted(script, was.clock, now.clock)) && |m| == |r| == |plan|
    && (Calm(script) && o == Done ==>
         && RestoredFrom(was.files, now.files, plan, 0) && Marked(plan, m, r, now.files, 0)
         && CanUndoAll(plan, m, was.shelf.backups, was.files))
    && (Calm(script) && OneFault(script, was.clock) && !was.temporary && o == Raised ==>
         CanUndoAll(plan, m, was.shelf.backups, was.files) ==> Faulted(script, was.clock, now.clock))
    && now.shelf.backups == was.shelf.backups && (Calm(script) ==> StuckIn(plan, m, r, was, now))
    && (Calm(script) && Held(plan, was.shelf, was.files) ==> Held(plan, now.shelf, now.files))
    && (Calm(script) && Enough(script, was.clock, 6 * |plan|) && !was.temporary ==>
         && o == (if CanUndoAll(plan, m, was.shelf.backups, was.files) then Done else Raised)
         && !now.temporary && now.clock <= was.clock + 6 * |plan|)
    && (|plan| == 1 && OvertakenIn(script, plan, was, 0, 0, 6) && !was.temporary ==>
         o == Done && Before(now.files, plan[0]) && now.clock == was.clock + 6 && !now.temporary)
    && (OneFault(script, was.clock) && !was.temporary ==> o == Crashed || !now.temporary)
  }

  lemma NotBegun(plan: seq<Change>, script: seq<Event>, m: seq<Entry>, was: Moment)
    requires |m| == |plan|
    ensures Going(plan, script, m, m, was, was, |plan|)
  {
  }

  /** The next entry, when it is done. */
  lemma GoesOn(plan: seq<Change>, script: seq<Event>, m: seq<Entry>, r: seq<Entry>, next: seq<Entry>, was: Moment,
      middle: Moment, now: Moment, i: nat)
    requires Going(plan, script, m, r, was, middle, i + 1) && DistinctPaths(plan)
    requires OneEntry(plan, script, r, next, middle, now, i, Done)
    ensures Going(plan, script, m, next, was, now, i)
  {
    WentFurther(plan, m, r, next, was.files, middle.files, now.files, script, i);
    if Calm(script) {
      StuckNext(plan, script, m, r, next, was, middle, now, i, Done);
      StillToUndo(plan, m, r, was.shelf.backups, was.files, middle.files, script, i);
    }
    OneFaultLater(script, was.clock, middle.clock);
  }

  /** The next entry, when it is not done. */
  lemma Stops(plan: seq<Change>, script: seq<Event>, m: seq<Entry>, r: seq<Entry>, next: seq<Entry>, was: Moment,
      middle: Moment, now: Moment, i: nat, o: Outcome)
    requires Going(plan, script, m, r, was, middle, i + 1) && OneEntry(plan, script, r, next, middle, now, i, o)
    requires o != Done && DistinctPaths(plan)
    ensures AllEntries(plan, script, m, next, was, now, o)
  {
    DriftFurther(plan, i, was.files, middle.files, now.files, script);
    if Calm(script) {
      StuckNext(plan, script, m, r, next, was, middle, now, i, o);
      StillToUndo(plan, m, r, was.shelf.backups, was.files, middle.files, script, i);
    }
    OneFaultLater(script, was.clock, middle.clock);
  }

  lemma WentThrough(plan: seq<Change>, script: seq<Event>, m: seq<Entry>, r: seq<Entry>, was: Moment, now: Moment)
    requires Going(plan, script, m, r, was, now, 0)
    ensures AllEntries(plan, script, m, r, was, now, Done)
  {
  }

  /** What writing the first state of an undo comes to. */
  ghost predicate FirstWrite(plan: seq<Change>, script: seq<Event>, r: Manifest, was: Moment, now: Moment, o: Outcome) {
    && Drift(was.files, now.files, script) && (Calm(script) ==> now.files == was.files) && was.clock <= now.clock
    && now.shelf == was.shelf.(manifest := if o == Done then Some(r) else was.shelf.manifest)
    && (Calm(script) && Held(plan, was.shelf, was.files) ==> Held(plan, now.shelf, now.files))
    && (Enough(script, was.clock, 2) ==>
         o == (if was.temporary then Raised else Done) && !now.temporary && now.clock <= was.clock + 2)
    && (QuietAt(script, was.clock, 2) && !was.temporary ==> now.clock == was.clock + 2 && now.files == was.files)
    && (o == Done ==> !now.temporary && !Faulted(script, was.clock, now.clock))
    && (o == Raised && !was.temporary ==> Faulted(script, was.clock, now.clock))
  }

  /** What removing the staged copies comes to. */
  ghost predicate Cleaned(plan: seq<Change>, script: seq<Event>, was: Moment, now: Moment, o: Outcome) {
    && Drift(was.files, now.files, script) && (Calm(script) ==> now.files == was.files)
    && was.clock <= now.clock <= was.clock + |plan| && now.temporary == was.temporary
    && now.shelf == was.shelf.(staged := now.shelf.staged) && now.shelf.staged.Keys <= was.shelf.staged.Keys
    && (o == Done ==> (forall i :: i in now.shelf.staged ==> i >= |plan|) && !Faulted(script, was.clock, now.clock))
    && (o == Raised ==> Faulted(script, was.clock, now.clock))
    && (Enough(script, was.clock, |plan|) ==> o == Done)
    && (QuietAt(script, was.clock, |plan|) ==> now.files == was.files && now.clock == was.clock + |plan|)
  }

  /** What restoring all files from the journal comes to. */
  ghost predicate FilesRestored(plan: seq<Change>, script: seq<Event>, m: Manifest, r: Manifest, was: Moment,
      now: Moment, o: Outcome)
  {
    && DriftOutside(plan, was.files, now.files, script) && was.clock <= now.clock
    && now.shelf.backups == was.shelf.backups && |m.changes| == |r.changes| == |plan|
    && (o == Done ==> NoneReplaced(now.files, plan, 0, script) && !Faulted(script, was.clock, now.clock))
    && (Calm(script) && o == Done ==>
         && RestoredFrom(was.files, now.files, plan, 0) && Marked(plan, m.changes, r.changes, now.files, 0)
         && CanUndoAll(plan, m.changes, was.shelf.backups, was.files))
    && (Calm(script) ==> StuckIn(plan, m.changes, r.changes, was, now))
    && (Calm(script) && Held(plan, was.shelf, was.files) ==>
         && Held(plan, now.shelf, now.files)
         && (o == Done ==> AllBefore(now.files, plan) && now.shelf.Empty()))
    && (Calm(script) && Enough(script, was.clock, 7 * |plan|) && !was.temporary ==>
         && o == (if CanUndoAll(plan, m.changes, was.shelf.backups, was.files) then Done else Raised)
         && !now.temporary && now.clock <= was.clock + 7 * |plan|)
    && (Calm(script) && OneFault(script, was.clock) && !was.temporary && o == Raised ==>
         CanUndoAll(plan, m.changes, was.shelf.backups, was.files) ==> Faulted(script, was.clock, now.clock))
    && (|plan| == 1 && OvertakenIn(script, plan, was, 0, 0, 7) && !was.temporary ==>
         o == Done && Before(now.files, plan[0]) && now.clock == was.clock + 7 && !now.temporary)
    && (OneFault(script, was.clock) && !was.temporary ==> o == Crashed || !now.temporary)
  }

  lemma RestoreStops(plan: seq<Change>, script: seq<Event>, m: Manifest, r: Manifest, was: Moment, now: Moment,
      o: Outcome)
    requires AllEntries(plan, script, m.changes, r.changes, was, now, o) && o != Done
    ensures FilesRestored(plan, script, m, r, was, now, o)
  {
    if |plan| == 1 && OvertakenIn(script, plan, was, 0, 0, 7) {
      assert OvertakenIn(script, plan, was, 0, 0, 6);
    }
  }

  lemma RestoreEnds(plan: seq<Change>, script: seq<Event>, m: Manifest, r: Manifest, was: Moment, middle: Moment,
      now: Moment, o: Outcome)
    requires AllEntries(plan, script, m.changes, r.changes, was, middle, Done) && Cleaned(plan, script, middle, now, o)
    requires middle.shelf.In({RollingBack, Recovering})
    ensures FilesRestored(plan, script, m, r, was, now, o)
  {
    DriftLast(plan, was.files, middle.files, now.files, script);
    OneFaultLater(script, was.clock, middle.clock);
    if Calm(script) && Held(plan, was.shelf, was.files) {
      HeldIsRestored(plan, was.shelf, was.files, middle.files);
      HeldAfterCleanup(plan, middle.shelf, now.shelf, now.files);
    }
    if |plan| == 1 && OvertakenIn(script, plan, was, 0, 0, 7) {
      assert OvertakenIn(script, plan, was, 0, 0, 6) && QuietAt(script, was.clock + 6, 1);
    }
  }

  /** What recording that a restore failed comes to. */
  ghost predicate Flagged(plan: seq<Change>, script: seq<Event>, r: Manifest, was: Moment, now: Moment, o: Outcome) {
    && Drift(was.files, now.files, script) && (Calm(script) ==> now.files == was.files)
    && was.clock <= now.clock && now.shelf == was.shelf.(manifest := now.shelf.manifest) && o != Done
    && (now.shelf.manifest == was.shelf.manifest || now.shelf.manifest == Some(r.(state := RecoveryRequired)))
    && (Calm(script) && Held(plan, was.shelf, was.files) ==> Held(plan, now.shelf, now.files))
    && (Faultless(script, was.clock) && !was.temporary && o == Raised ==> now.shelf.In({RecoveryRequired}))
    && (Enough(script, was.clock, 2) && !was.temporary ==> o == Raised)
  }

  lemma RestoredWell(plan: seq<Change>, script: seq<Event>, m: Manifest, r: Manifest, was: Moment, now: Moment,
      o: Outcome)
    requires FilesRestored(plan, script, m, r, was, now, o) && o != Raised && now.shelf.manifest.Some?
    ensures RestoredOrFlagged(plan, script, m, r, was, now, o)
  {
  }

  lemma FailedAndFlagged(plan: seq<Change>, script: seq<Event>, m: Manifest, r: Manifest, was: Moment, middle: Moment,
      now: Moment, o: Outcome)
    requires FilesRestored(plan, script, m, r, was, middle, Raised) && Flagged(plan, script, r, middle, now, o)
    ensures RestoredOrFlagged(plan, script, m, r, was, now, o)
  {
    DriftLast(plan, was.files, middle.files, now.files, script);
    FaultlessLater(script, was.clock, middle.clock);
    if OneFault(script, was.clock) && Faulted(script, was.clock, middle.clock) {
      FaultSpent(script, was.clock, middle.clock);
    }
  }

  /** What restoring the files, or recording that this failed, comes to. */
  ghost predicate RestoredOrFlagged(plan: seq<Change>, script: seq<Event>, m: Manifest, r: Manifest, was: Moment,
      now: Moment, o: Outcome)
  {
    && DriftOutside(plan, was.files, now.files, script) && was.clock <= now.clock
    && now.shelf.backups == was.shelf.backups && (o == Done ==> now.shelf.manifest.Some?)
    && (o == Done ==> NoneReplaced(now.files, plan, 0, script))
    && (o == Done ==> !Faulted(script, was.clock, now.clock)) && |m.changes| == |r.changes| == |plan|
    && (Calm(script) && o == Done ==>
         && RestoredFrom(was.files, now.files, plan, 0) && Marked(plan, m.changes, r.changes, now.files, 0)
         && CanUndoAll(plan, m.changes, was.shelf.backups, was.files))
    && (Calm(script) && OneFault(script, was.clock) && !was.temporary && o == Raised ==>
         CanUndoAll(plan, m.changes, was.shelf.backups, was.files) ==>
           Faulted(script, was.clock, now.clock) && now.shelf.In({RecoveryRequired}))
    && (OneFault(script, was.clock) && !was.temporary && o == Done ==> !now.temporary)
    && (Calm(script) && was.shelf.manifest == Some(m) ==>
         && StaysStuckIn(plan, m.changes, now.shelf.manifest, was.shelf.backups, was.files, now.files)
         && (o == Done ==> StaysStuck(plan, m.changes, r.changes, was.shelf.backups, was.files, now.files)))
    && (Calm(script) && Held(plan, was.shelf, was.files) ==>
         && Held(plan, now.shelf, now.files)
         && (o == Done ==> AllBefore(now.files, plan) && now.shelf.Empty()))
    && (Calm(script) && Enough(script, was.clock, 7 * |plan| + 2) && !was.temporary ==>
         if CanUndoAll(plan, m.changes, was.shelf.backups, was.files)
         then o == Done && !now.temporary && now.clock <= was.clock + 7 * |plan|
         else o == Raised)
    && (|plan| == 1 && OvertakenIn(script, plan, was, 0, 0, 7) && !was.temporary ==>
         o == Done && Before(now.files, plan[0]) && now.clock == was.clock + 7 && !now.temporary)
    && (Faultless(script, was.clock) && !was.temporary ==>
         (o == Raised ==> now.shelf.In({RecoveryRequired})) && (o == Done ==> !now.temporary))
  }

  /** What undoing the files of a transaction comes to, from the journal's `m` to the `r` in memory. */
  ghost predicate FilesUndone(plan: seq<Change>, script: seq<Event>, m: Manifest, r: Manifest, was: Moment, now: Moment,
      o: Outcome)
  {
    && DriftOutside(plan, was.files, now.files, script) && was.clock <= now.clock
    && now.shelf.backups == was.shelf.backups && (o == Done ==> now.shelf.manifest.Some?)
    && (o == Done ==> NoneReplaced(now.files, plan, 0, script))
    && (o == Done ==> !Faulted(script, was.clock, now.clock)) && |m.changes| == |r.changes| == |plan|
    && (Calm(script) && o == Done ==>
         && now.files == Restored(was.files, plan) && Marked(plan, m.changes, r.changes, now.files, 0)
         && CanUndoAll(plan, m.changes, was.shelf.backups, was.files))
    && (Calm(script) && OneFault(script, was.clock) && !was.temporary && o == Raised ==>
         CanUndoAll(plan, m.changes, was.shelf.backups, was.files) ==>
           && Faulted(script, was.clock, now.clock)
           && (now.shelf.In({RecoveryRequired}) || now.shelf.manifest == was.shelf.manifest))
    && (OneFault(script, was.clock) && !was.temporary && o == Done ==> !now.temporary)
    && (Calm(script) && was.shelf.manifest == Some(m) ==>
         && StaysStuckIn(plan, m.changes, now.shelf.manifest, was.shelf.backups, was.files, now.files)
         && (o == Done ==> StaysStuck(plan, m.changes, r.changes, was.shelf.backups, was.files, now.files)))
    && (Calm(script) && Held(plan, was.shelf, was.files) ==>
         && Held(plan, now.shelf, now.files)
         && (o == Done ==> AllBefore(now.files, plan) && now.shelf.Empty()))
    && (Calm(script) && Enough(script, was.clock, 7 * |plan| + 4) ==>
         if !was.temporary && CanUndoAll(plan, m.changes, was.shelf.backups, was.files)
         then o == Done && !now.temporary && now.clock <= was.clock + 7 * |plan| + 2
         else o == Raised && (was.temporary ==> !now.temporary))
    && (|plan| == 1 && OvertakenIn(script, plan, was, 0, 2, 7) && !was.temporary ==>
         o == Done && Before(now.files, plan[0]) && now.clock == was.clock + 9 && !now.temporary)
    && (Faultless(script, was.clock) && !was.temporary ==>
         (o == Raised ==> now.shelf.In({RecoveryRequired})) && (o == Done ==> !now.temporary))
  }

  /** What writing the last state of an undo comes to. */
  ghost predicate LastWrite(plan: seq<Change>, script: seq<Event>, r: Manifest, end: TxState, middle: Moment,
      now: Moment, o: Outcome)
  {
    && Drift(middle.files, now.files, script) && (Calm(script) ==> now.files == middle.files)
    && middle.clock <= now.clock && now.shelf.backups == middle.shelf.backups
    && now.shelf.manifest == (if o == Done then Some(r.(state := end)) else middle.shelf.manifest)
    && (Calm(script) && Held(plan, middle.shelf, middle.files) ==>
         AllBefore(middle.files, plan) && middle.shelf.Empty() ==> Held(plan, now.shelf, now.files))
    && (Enough(script, middle.clock, 2) && !middle.temporary ==>
         o == Done && !now.temporary && now.clock <= middle.clock + 2)
    && (QuietAt(script, middle.clock, 2) && !middle.temporary ==>
         now.clock == middle.clock + 2 && now.files == middle.files)
    && (Faultless(script, middle.clock) && !middle.temporary ==> o != Raised)
    && (o == Done ==> !Faulted(script, middle.clock, now.clock))
    && (o == Raised && !middle.temporary ==> Faulted(script, middle.clock, now.clock))
    && (OneFault(script, middle.clock) && !middle.temporary && o == Raised ==> !now.temporary)
  }

  /** What a whole undo comes to, from the journal's `m`. */
  ghost predicate WholeUndo(plan: seq<Change>, script: seq<Event>, m: Manifest, was: Moment, now: Moment, o: Outcome) {
    && DriftOutside(plan, was.files, now.files, script) && was.clock <= now.clock
    && now.shelf.backups == was.shelf.backups
    && (o == Done ==> NoneReplaced(now.files, plan, 0, script))
    && (o == Done ==> !Faulted(script, was.clock, now.clock)) && |m.changes| == |plan|
    && (Calm(script) && o == Done ==>
         && now.files == Restored(was.files, plan) && CanUndoAll(plan, m.changes, was.shelf.backups, was.files)
         && now.shelf.manifest.Some? && |now.shelf.manifest.value.changes| == |plan|
         && Marked(plan, m.changes, now.shelf.manifest.value.changes, now.files, 0))
    && (Calm(script) && OneFault(script, was.clock) && !was.temporary && o == Raised ==>
         CanUndoAll(plan, m.changes, was.shelf.backups, was.files) ==> Faulted(script, was.clock, now.clock))
    && (Calm(script) && was.shelf.manifest == Some(m) ==>
         StaysStuckIn(plan, m.changes, now.shelf.manifest, was.shelf.backups, was.files, now.files))
    && (Calm(script) && Held(plan, was.shelf, was.files) ==> Held(plan, now.shelf, now.files))
    && (Calm(script) && Enough(script, was.clock, 7 * |plan| + 4) ==>
         if !was.temporary && CanUndoAll(plan, m.changes, was.shelf.backups, was.files)
         then o == Done && !now.temporary && now.clock <= was.clock + 7 * |plan| + 4
         else o == Raised && (was.temporary ==> !now.temporary))
    && (|plan| == 1 && OvertakenIn(script, plan, was, 0, 2, 9) && !was.temporary ==>
         o == Done && Before(now.files, plan[0]) && now.clock == was.clock + 11)
    && (Faultless(script, was.clock) && !was.temporary && o == Raised ==> now.shelf.In({RecoveryRequired}))
  }

  lemma UndoBegins(plan: seq<Change>, script: seq<Event>, m: Manifest, r: Manifest, was: Moment, now: Moment,
      o: Outcome)
    requires FirstWrite(plan, script, r, was, now, o) && o != Done && |m.changes| == |plan| && r.changes == m.changes
    ensures FilesUndone(plan, script, m, r, was, now, o)
  {
    StuckAtFirst(plan, m.changes, was.shelf.backups, was.files);
  }

  lemma UndoGoesOn(plan: seq<Change>, script: seq<Event>, m: Manifest, begun: Manifest, r: Manifest, was: Moment,
      middle: Moment, now: Moment, o: Outcome)
    requires FirstWrite(plan, script, begun, was, middle, Done) && begun.changes == m.changes && DistinctPaths(plan)
    requires RestoredOrFlagged(plan, script, begun, r, middle, now, o)
    ensures FilesUndone(plan, script, m, r, was, now, o)
  {
    OneFaultLater(script, was.clock, middle.clock);
    FaultlessLater(script, was.clock, middle.clock);
    if Calm(script) && o == Done {
      CalmStays(plan, was.files, now.files, script);
      RestoredUnique(was.files, now.files, plan);
    }
  }

  lemma UndoStops(plan: seq<Change>, script: seq<Event>, m: Manifest, r: Manifest, was: Moment, now: Moment, o: Outcome)
    requires FilesUndone(plan, script, m, r, was, now, o) && o != Done
    ensures WholeUndo(plan, script, m, was, now, o)
  {
    if OvertakenIn(script, plan, was, 0, 2, 9) {
      OvertakenEarly(script, plan, was, 0);
    }
  }

  lemma UndoEnds(plan: seq<Change>, script: seq<Event>, m: Manifest, r: Manifest, end: TxState, was: Moment,
      middle: Moment, now: Moment, o: Outcome)
    requires FilesUndone(plan, script, m, r, was, middle, Done)
    requires LastWrite(plan, script, r, end, middle, now, o)
    ensures WholeUndo(plan, script, m, was, now, o)
  {
    if OvertakenIn(script, plan, was, 0, 2, 9) {
      OvertakenEarly(script, plan, was, 0);
    }
    DriftLast(plan, was.files, middle.files, now.files, script);
    FaultlessLater(script, was.clock, middle.clock);
  }

  /** What a failed apply comes to, when it undoes itself. */
  ghost predicate Aborted(plan: seq<Change>, script: seq<Event>, was: Moment, now: Moment, o: Outcome) {
    && DriftOutside(plan, was.files, now.files, script) && was.clock <= now.clock && o != Done
    && (now.shelf.In({RolledBack}) ==> NoneReplaced(now.files, plan, 0, script))
    && (Calm(script) && Held(plan, was.shelf, was.files) ==>
         && Held(plan, now.shelf, now.files)
         && (Enough(script, was.clock, 7 * |plan| + 4) && !was.temporary ==>
              o == Raised && now.shelf.In({RolledBack}))
         && (OneFault(script, was.clock) && !was.temporary && o == Raised ==>
              now.shelf.In({RolledBack, RecoveryRequired}) || now.shelf.manifest == was.shelf.manifest))
    && (Faultless(script, was.clock) && !was.temporary && o == Raised ==>
         now.shelf.In({RolledBack, RecoveryRequired}))
  }

  /** Its files were not undone. */
  lemma AbortStops(plan: seq<Change>, script: seq<Event>, m: Manifest, r: Manifest, was: Moment, now: Moment,
      o: Outcome)
    requires FilesUndone(plan, script, m, r, was, now, o) && o != Done && !now.shelf.In({RolledBack})
    ensures Aborted(plan, script, was, now, o)
  {
    if Held(plan, was.shelf, was.files) {
      HeldCanUndo(plan, was.shelf, m.changes, was.files);
    }
  }

  /** They were, and that is recorded or not. */
  lemma AbortEnds(plan: seq<Change>, script: seq<Event>, m: Manifest, r: Manifest, was: Moment, middle: Moment,
      now: Moment, o: Outcome)
    requires FilesUndone(plan, script, m, r, was, middle, Done)
    requires LastWrite(plan, script, r, RolledBack, middle, now, o)
    requires o != Raised && !middle.shelf.In({RolledBack})
    ensures Aborted(plan, script, was, now, if o == Done then Raised else o)
  {
    hide CanUndoAll;
    if Held(plan, was.shelf, was.files) {
      HeldCanUndo(plan, was.shelf, m.changes, was.files);
    }
    DriftLast(plan, was.files, middle.files, now.files, script);
  }

  /** They were, that could not be recorded, and this is flagged or not. */
  lemma AbortFlags(plan: seq<Change>, script: seq<Event>, m: Manifest, r: Manifest, was: Moment, middle: Moment,
      late: Moment, now: Moment, o: Outcome)
    requires FilesUndone(plan, script, m, r, was, middle, Done) && !middle.shelf.In({RolledBack})
    requires LastWrite(plan, script, r, RolledBack, middle, late, Raised) && Flagged(plan, script, r, late, now, o)
    ensures Aborted(plan, script, was, now, o)
  {
    hide CanUndoAll;
    if Held(plan, was.shelf, was.files) {
      HeldCanUndo(plan, was.shelf, m.changes, was.files);
    }
    DriftLast(plan, was.files, middle.files, late.files, script);
    DriftLast(plan, was.files, late.files, now.files, script);
    FaultlessLater(script, was.clock, middle.clock);
    OneFaultLater(script, was.clock, middle.clock);
    if OneFault(script, middle.clock) && Faulted(script, middle.clock, late.clock) {
      FaultSpent(script, middle.clock, late.clock);
    }
  }
}
