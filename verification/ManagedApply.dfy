/** From a submitted managed plan to the two files on the disk. */
module ManagedApply {
  import opened Basics
  import opened JournalModel
  import opened Transaction
  import opened TransactionRuns
  import opened ApplyWorkflow
  import P = ManagedPlans
  import S = ManagedStates

  const STATE_NAME := "ncm/state.json"
  const MODULE_NAME := "ncm/packages.nix"

  function NameOf(path: P.Path): string {
    match path
    case StateFile => STATE_NAME
    case ModuleFile => MODULE_NAME
    case Elsewhere(name) => name
  }

  lemma TwoNames()
    ensures NameOf(P.StateFile) != NameOf(P.ModuleFile)
  {
    assert |STATE_NAME| == 14 && |MODULE_NAME| == 16;
  }

  const BOTH: set<P.Path> := {P.StateFile, P.ModuleFile}

  /** The managed files of a root. */
  function Managed(files: Files): P.Files {
    map path | path in BOTH && NameOf(path) in files :: files[NameOf(path)]
  }

  function ChangeFor(f: P.FileChange): Change {
    Change(NameOf(f.path), if f.create then None else Some(f.previous), f.candidate)
  }

  /** What the transaction engine is given. */
  function ChangesFor(changes: seq<P.FileChange>): seq<Change> {
    seq(|changes|, i requires 0 <= i < |changes| => ChangeFor(changes[i]))
  }

  /** The canonical texts of a state. */
  predicate Canonical(c: P.Context, s: S.State, files: P.Files) {
    && P.Generate(s).Some?
    && P.StateFile in files && files[P.StateFile] == P.Serialize(c, s)
    && P.ModuleFile in files && files[P.ModuleFile] == P.Generate(s).value
  }

  /** What a plan changes: at most the two files, each from what is there to its canonical text; what it
      does not change is canonical already. */
  lemma ChangesAre(files: P.Files, state: string, mod: string)
    requires state != "" && mod != ""
    ensures var cs := P.Changes(files, state, mod);
      && |cs| <= 2 && (|cs| == 2 ==> cs[0].path != cs[1].path)
      && (forall i :: 0 <= i < |cs| ==>
           && cs[i].path in BOTH && cs[i].candidate == (if cs[i].path == P.StateFile then state else mod)
           && cs[i].create == (cs[i].path !in files) && (cs[i].path in files ==> cs[i].previous == files[cs[i].path]))
    ensures P.Changes(files, state, mod) == [] <==>
      P.StateFile in files && files[P.StateFile] == state && P.ModuleFile in files && files[P.ModuleFile] == mod
  {
  }

  /** A managed file that no change names holds its text already. */
  lemma LeftAlone(files: P.Files, state: string, mod: string, path: P.Path)
    requires state != "" && mod != "" && path in BOTH
    requires var cs := P.Changes(files, state, mod); forall i :: 0 <= i < |cs| ==> cs[i].path != path
    ensures path in files && files[path] == if path == P.StateFile then state else mod
  {
    var cs := P.Changes(files, state, mod);
    var first, last := P.ChangeOf(files, P.StateFile, state), P.ChangeOf(files, P.ModuleFile, mod);
    assert cs == first + last;
    if first != [] {
      assert cs[0].path == P.StateFile;
    }
    if last != [] {
      assert cs[|cs| - 1].path == P.ModuleFile;
    }
  }

  /** The engine is given distinct paths, whose planned content is that of the files planned on. */
  lemma EngineChanges(files: Files, state: string, mod: string)
    requires state != "" && mod != ""
    ensures var changes := ChangesFor(P.Changes(Managed(files), state, mod));
      && DistinctPaths(changes) && AllBefore(files, changes) && |changes| <= 2
      && forall i :: 0 <= i < |changes| ==> changes[i].candidate in {state, mod}
  {
    ChangesAre(Managed(files), state, mod);
    TwoNames();
  }

  lemma UntouchedStays(plan: seq<Change>, before: Files, after: Files, script: seq<Event>, path: string)
    requires DriftOutside(plan, before, after, script) && Untouched(script, path) && !HasPath(plan, path)
    ensures Get(after, path) == Get(before, path)
  {
    assert NeverEdits(script, path, Get(after, path));
  }

  /** One managed file after the commit. */
  lemma EndsCanonical(cs: seq<P.FileChange>, path: P.Path, text: string, middle: Files, after: Files,
      script: seq<Event>)
    requires forall i :: 0 <= i < |cs| && NameOf(cs[i].path) == NameOf(path) ==> cs[i].candidate == text
    requires InstalledIfUntouched(after, ChangesFor(cs), |cs|, script)
    requires DriftOutside(ChangesFor(cs), middle, after, script)
    requires Untouched(script, NameOf(path)) && Get(middle, NameOf(path)) == Some(text)
    ensures Get(after, NameOf(path)) == Some(text)
  {
    hide NameOf;
    var name := NameOf(path);
    if HasPath(ChangesFor(cs), name) {
      var i :| 0 <= i < |cs| && ChangesFor(cs)[i].path == name;
    } else {
      UntouchedStays(ChangesFor(cs), middle, after, script, name);
    }
  }

  /** No other program edits the two managed files. */
  ghost predicate OthersStayAway(disk: Disk)
    reads disk
  {
    Untouched(disk.script, NameOf(P.StateFile)) && Untouched(disk.script, NameOf(P.ModuleFile))
  }

  lemma TwoTexts(state: string, mod: string, seen: Files, middle: Files, after: Files, script: seq<Event>)
    requires state != "" && mod != "" && P.Changes(Managed(middle), state, mod) == []
    requires var changes := ChangesFor(P.Changes(Managed(seen), state, mod));
      InstalledIfUntouched(after, changes, |changes|, script) && DriftOutside(changes, middle, after, script)
    requires Untouched(script, NameOf(P.StateFile)) && Untouched(script, NameOf(P.ModuleFile))
    ensures P.StateFile in Managed(after) && Managed(after)[P.StateFile] == state
    ensures P.ModuleFile in Managed(after) && Managed(after)[P.ModuleFile] == mod
  {
    ChangesAre(Managed(seen), state, mod);
    ChangesAre(Managed(middle), state, mod);
    TwoNames();
    hide NameOf, P.Changes, InstalledIfUntouched, DriftOutside, Untouched;
    var cs := P.Changes(Managed(seen), state, mod);
    EndsCanonical(cs, P.StateFile, state, middle, after, script);
    EndsCanonical(cs, P.ModuleFile, mod, middle, after, script);
  }

  /** Planning again finds nothing to change. */
  predicate NothingLeft(c: P.Context, s: S.State, target: Option<string>, files: Files) {
    var again := P.PlanState(c, Managed(files), s, target);
    again.Some? && again.value.changes == []
  }

  lemma BothCanonical(c: P.Context, s: S.State, target: Option<string>, seen: Files, middle: Files, after: Files,
      script: seq<Event>)
    requires P.JsonInverse(c) && P.FixedPoint(c, s)
    requires P.PlanState(c, Managed(seen), s, target).Some?
    requires NothingLeft(c, s, target, middle)
    requires var changes := ChangesFor(P.PlanState(c, Managed(seen), s, target).value.changes);
      InstalledIfUntouched(after, changes, |changes|, script) && DriftOutside(changes, middle, after, script)
    requires Untouched(script, NameOf(P.StateFile)) && Untouched(script, NameOf(P.ModuleFile))
    ensures Canonical(c, s, Managed(after))
  {
    hide Managed;
    P.SerializedReadsBack(c, s);
    P.GeneratedNotEmpty(s);
    TwoTexts(P.Serialize(c, s), P.Generate(s).value, seen, middle, after, script);
  }

  lemma AcceptedPlan(c: P.Context, seen: Files, q: P.Request, target: Option<string>)
    requires P.JsonInverse(c) && P.Match(c, Managed(seen), q, target).Some?
    ensures var p := P.Match(c, Managed(seen), q, target).value;
      && P.PlanState(c, Managed(seen), p.state, target) == Some(p) && P.FixedPoint(c, p.state)
      && P.Serialize(c, p.state) != "" && P.Generate(p.state).Some? && P.Generate(p.state).value != ""
      && p.changes == P.Changes(Managed(seen), P.Serialize(c, p.state), P.Generate(p.state).value)
  {
    var p := P.Match(c, Managed(seen), q, target).value;
    S.ReadingTwice(c.catalog, c.consistent, c.load(P.StateText(Managed(seen), q.candidates).value).value);
    P.SerializedReadsBack(c, p.state);
    P.GeneratedNotEmpty(p.state);
  }

  /** Everything installed as planned, each managed file holds its canonical text: its change put it there, or
      it was there already. */
  lemma InPlaceAfter(state: string, mod: string, path: P.Path, seen: Files, middle: Files)
    requires state != "" && mod != "" && path in BOTH
    requires var changes := ChangesFor(P.Changes(Managed(seen), state, mod));
      AllInstalled(middle, changes) && SameOutside(changes, seen, middle)
    ensures path in Managed(middle) && Managed(middle)[path] == if path == P.StateFile then state else mod
  {
    hide NameOf;
    var cs := P.Changes(Managed(seen), state, mod);
    ChangesAre(Managed(seen), state, mod);
    if forall i :: 0 <= i < |cs| ==> cs[i].path != path {
      LeftAlone(Managed(seen), state, mod, path);
    }
    hide P.Changes, AllInstalled, SameOutside;
    OneInPlace(cs, path, if path == P.StateFile then state else mod, seen, middle);
  }

  /** Everything installed as planned, planning again changes nothing. */
  lemma NothingToDo(c: P.Context, s: S.State, target: Option<string>, seen: Files, middle: Files)
    requires P.Serialize(c, s) != "" && P.PlanState(c, Managed(seen), s, target).Some?
    requires P.Generate(s).Some? && P.Generate(s).value != ""
    requires var changes := ChangesFor(P.PlanState(c, Managed(seen), s, target).value.changes);
      AllInstalled(middle, changes) && SameOutside(changes, seen, middle)
    ensures NothingLeft(c, s, target, middle)
  {
    hide NameOf, Managed, ChangesFor, AllInstalled, SameOutside, P.Serialize, P.Generate, P.Changes;
    var state, mod := P.Serialize(c, s), P.Generate(s).value;
    InPlaceAfter(state, mod, P.StateFile, seen, middle);
    InPlaceAfter(state, mod, P.ModuleFile, seen, middle);
    ChangesAre(Managed(middle), state, mod);
  }

  lemma OneInPlace(cs: seq<P.FileChange>, path: P.Path, text: string, seen: Files, middle: Files)
    requires path in BOTH && forall i :: 0 <= i < |cs| ==> cs[i].path in BOTH
    requires forall i :: 0 <= i < |cs| && cs[i].path == path ==> cs[i].candidate == text
    requires (forall i :: 0 <= i < |cs| ==> cs[i].path != path) ==> Get(seen, NameOf(path)) == Some(text)
    requires AllInstalled(middle, ChangesFor(cs)) && SameOutside(ChangesFor(cs), seen, middle)
    ensures Get(middle, NameOf(path)) == Some(text)
  {
    TwoNames();
    if HasPath(ChangesFor(cs), NameOf(path)) {
      var i :| 0 <= i < |cs| && ChangesFor(cs)[i].path == NameOf(path);
      assert cs[i].path == path;
    } else {
      forall i | 0 <= i < |cs| ensures cs[i].path != path {
        assert ChangesFor(cs)[i].path == NameOf(cs[i].path);
      }
    }
  }

  /** Plans again over what was installed, and commits only if nothing is left to change and the
      validation accepts. */
  method Verify(disk: Disk, dir: TransactionDir, c: P.Context, p: P.Plan, target: Option<string>, ghost seen: Files,
      validation: Validation)
    returns (r: Result)
    requires disk.Running() && dir.Valid() && PlannedOn(disk, dir) && dir.At(AwaitingVerification)
    requires P.JsonInverse(c) && P.FixedPoint(c, p.state) && P.PlanState(c, Managed(seen), p.state, target) == Some(p)
    requires dir.plan == ChangesFor(p.changes)
    modifies disk`files, disk`clock, disk`died, disk`log
    modifies dir`restoring, dir`manifest, dir`temporary, dir`history, dir`staged
    ensures disk.Valid() && dir.Valid() && (disk.died <==> r == Result.Crashed)
    ensures r == Result.Committed <==> dir.At(TxState.Committed)
    ensures r == Result.Committed && OthersStayAway(disk) ==> Canonical(c, p.state, Managed(disk.files))
    ensures DriftOutside(dir.plan, old(disk.files), disk.files, disk.script)
    ensures Calm(disk.script) && old(Held(dir.plan, dir.Kept(), disk.files)) ==> Held(dir.plan, dir.Kept(), disk.files)
    ensures Calm(disk.script) && old(Held(dir.plan, dir.Kept(), disk.files)) && old(Runs(disk, 8 * |dir.plan| + 7)) ==>
      old(!dir.temporary) ==>
        && (r == Result.Committed || dir.At(TxState.RolledBack))
        && r == Reported(if old(NothingLeft(c, p.state, target, disk.files)) then validation else Throws)
    ensures r == Result.Committed ==> validation == Passed(true) && old(NothingLeft(c, p.state, target, disk.files))
    ensures r == Result.RolledBack ==> dir.At(TxState.RolledBack) && NoneReplaced(disk.files, dir.plan, 0, disk.script)
  {
    var nothing := NothingLeft(c, p.state, target, disk.files);
    ghost var middle := disk.files;
    r := Conclude(disk, dir, if nothing then validation else Throws);
    if && r == Result.Committed && Untouched(disk.script, NameOf(P.StateFile))
       && Untouched(disk.script, NameOf(P.ModuleFile)) {
      BothCanonical(c, p.state, target, seen, middle, disk.files, disk.script);
    }
  }

  lemma AwaitingMeansInstalled(dir: TransactionDir, files: Files)
    requires Held(dir.plan, dir.Kept(), files) && dir.At(AwaitingVerification)
    ensures AllInstalled(files, dir.plan)
  {
  }

  lemma UndoneAsBefore(changes: seq<Change>, dir: TransactionDir?, before: Files, middle: Files, disk: Disk)
    requires Calm(disk.script) && (dir != null ==> dir.Valid() && dir.plan == changes)
    requires DriftOutside(changes, before, middle, disk.script)
    requires DriftOutside(changes, middle, disk.files, disk.script)
    requires dir != null ==> Held(changes, dir.Kept(), disk.files) && AllBefore(before, changes)
    ensures dir != null && dir.At(TxState.RolledBack) ==> disk.files == before
  {
    CalmStays(changes, before, middle, disk.script);
    CalmStays(changes, middle, disk.files, disk.script);
    if dir != null && dir.At(TxState.RolledBack) {
      GoneMeansUndone(dir, before, disk.files);
    }
  }

  /** The apply workflow of the managed files. */
  method ApplyAccepted(disk: Disk, c: P.Context, p: P.Plan, target: Option<string>, ghost seen: Files,
      validation: Validation)
    returns (r: Result, dir: TransactionDir?)
    requires disk.Running() && P.JsonInverse(c) && P.FixedPoint(c, p.state)
    requires P.PlanState(c, Managed(seen), p.state, target) == Some(p)
    requires DistinctPaths(ChangesFor(p.changes)) && AllBefore(seen, ChangesFor(p.changes)) && |p.changes| <= 2
    requires P.Serialize(c, p.state) != "" && P.Generate(p.state).Some? && P.Generate(p.state).value != ""
    modifies disk`files, disk`clock, disk`died, disk`log, disk`planned
    ensures disk.Valid() && (disk.died <==> r == Result.Crashed) && (dir != null ==> fresh(dir) && dir.Valid())
    ensures r == Result.Committed && OthersStayAway(disk) ==> Canonical(c, p.state, Managed(disk.files))
    ensures r == Result.Committed <==> dir != null && dir.At(TxState.Committed)
    ensures Calm(disk.script) && (dir == null || dir.At(TxState.RolledBack)) ==> disk.files == old(disk.files)
    ensures Calm(disk.script) && old(disk.files) == seen && old(Runs(disk, 52)) ==>
      r == Reported(validation) && dir != null && (r == Result.Committed || dir.At(TxState.RolledBack))
    ensures r == Result.Committed ==> validation == Passed(true)
    ensures r == Result.RolledBack ==>
      && dir != null && dir.At(TxState.RolledBack)
      && NoneReplaced(disk.files, ChangesFor(p.changes), 0, disk.script)
  {
    hide OthersStayAway, Canonical, NothingLeft, Managed, Held, AllBefore, DriftOutside, Calm, DistinctPaths;
    hide P.PlanState, P.Serialize, P.Generate, P.FixedPoint, P.JsonInverse;
    ghost var changes := ChangesFor(p.changes);
    var o;
    o, dir := ApplyChanges(disk, ChangesFor(p.changes));
    r := FromOutcome(o, Result.Raised);
    ghost var middle := disk.files;
    if o == Done {
      if Calm(disk.script) && old(disk.files) == seen {
        CalmStays(changes, seen, middle, disk.script);
        AwaitingMeansInstalled(dir, middle);
        NothingToDo(c, p.state, target, seen, middle);
      }
      r := Verify(disk, dir, c, p, target, seen, validation);
    }
    if Calm(disk.script) {
      UndoneAsBefore(changes, dir, old(disk.files), middle, disk);
    }
  }

  /** A submitted plan is matched with the files as they are seen at validation, and applied to the disk
      later. When the workflow reports a commit, and no other program edits the two files, they hold the
      canonical texts of the state that was accepted; when it ends undone and undisturbed, the root is as
      it was; and undisturbed, without errors, it does commit. */
  method ApplyRequest(disk: Disk, c: P.Context, q: P.Request, target: Option<string>, seen: Files,
      validation: Validation)
    returns (r: Option<Result>, dir: TransactionDir?)
    requires disk.Running() && P.JsonInverse(c)
    modifies disk`files, disk`clock, disk`died, disk`log, disk`planned
    ensures disk.Valid() && (disk.died <==> r == Some(Result.Crashed)) && (dir != null ==> fresh(dir) && dir.Valid())
    ensures r.None? <==> P.Match(c, Managed(seen), q, target).None?
    ensures r.None? ==> disk.files == old(disk.files) && dir == null
    ensures r == Some(Result.Committed) && OthersStayAway(disk) ==>
      Canonical(c, P.Match(c, Managed(seen), q, target).value.state, Managed(disk.files))
    ensures r == Some(Result.Committed) && OthersStayAway(disk) ==>
      var s := P.Match(c, Managed(seen), q, target).value.state;
      && Get(disk.files, STATE_NAME) == Some(P.Serialize(c, s)) && Get(disk.files, MODULE_NAME) == P.Generate(s)
    ensures r == Some(Result.Committed) <==> dir != null && dir.At(TxState.Committed)
    ensures Calm(disk.script) && (dir == null || dir.At(TxState.RolledBack)) ==> disk.files == old(disk.files)
    ensures Calm(disk.script) && old(disk.files) == seen && old(Runs(disk, 52)) && r.Some? ==>
      r == Some(Reported(validation)) && dir != null && (r.value == Result.Committed || dir.At(TxState.RolledBack))
    ensures r == Some(Result.Committed) ==> validation == Passed(true)
    ensures r == Some(Result.RolledBack) ==>
      && dir != null && dir.At(TxState.RolledBack)
      && NoneReplaced(disk.files, ChangesFor(P.Match(c, Managed(seen), q, target).value.changes), 0, disk.script)
  {
    r, dir := None, null;
    var plan := P.Match(c, Managed(seen), q, target);
    if plan.None? { return; }
    AcceptedPlan(c, seen, q, target);
    EngineChanges(seen, P.Serialize(c, plan.value.state), P.Generate(plan.value.state).value);
    var result;
    result, dir := ApplyAccepted(disk, c, plan.value, target, seen, validation);
    r := Some(result);
  }
}
