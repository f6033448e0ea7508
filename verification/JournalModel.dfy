/** Data of the transaction engine: planned changes, the journal, and the history of a root.

    A root is a map from relative path to content. Names the engine makes up (staged copies and
    restore copies) contain a fresh random transaction id, so they never meet a configuration
    path; they live in a separate map. A digest is symbolic: two contents have the same digest
    only when they are the same content. */
module JournalModel {
  import opened Basics

  type Content = string
  type Files = map<string, Content>
  type Edits = map<string, Option<Content>>

  datatype Digest = Sha256(preimage: Content)

  /** One planned file change. Absent previous content is the action `create`, present previous
      content the action `modify`. */
  datatype Change = Change(path: string, previous: Option<Content>, candidate: Content)

  datatype Action = Create | Modify

  /** Journal status of one file: planned, prepared, committed, rolled-back. */
  datatype Status = Planned | Prepared | Installed | Undone

  datatype Entry = Entry(
    path: string,
    action: Action,
    previousSha256: Option<Digest>,
    candidateSha256: Digest,
    status: Status)

  datatype TxState =
    | Preparing
    | Committing
    | AwaitingVerification
    | Committed
    | RollingBack
    | RolledBack
    | Recovering
    | Recovered
    | RecoveryRequired

  datatype Manifest = Manifest(state: TxState, changes: seq<Entry>)

  /** What the surroundings do just before one file-system operation: other programs edit files,
      and the operation itself may be refused with an I/O error. */
  datatype Event = Event(edits: Edits, fails: bool)

  /** How a call ends: it returns, it raises, or the machine dies in the middle of it. */
  datatype Outcome = Done | Raised | Crashed

  /** What restoring one file came to: it already held its previous content, it held content the
      engine does not know and was left alone, or its previous content was put back. */
  datatype Verdict = AlreadyUndone | LeftAlone | PutBack

  /** The history of the root: edits by other programs, and the two ways the engine writes. A
      restore remembers the history position at which it had examined the file. */
  datatype Write =
    | Edited(edits: Edits)
    | Install(change: Change)
    | Restore(change: Change, since: nat)

  function Get(files: Files, path: string): Option<Content> {
    if path in files then Some(files[path]) else None
  }

  function Put(files: Files, path: string, content: Option<Content>): Files {
    if content.Some? then files[path := content.value] else files - {path}
  }

  lemma GetPut(files: Files, path: string, content: Option<Content>)
    ensures Get(Put(files, path, content), path) == content
    ensures SameExcept(path, files, Put(files, path, content))
  {
  }

  function ApplyEdits(files: Files, edits: Edits): (after: Files)
    ensures forall p :: Get(after, p) == if p in edits then edits[p] else Get(files, p)
    ensures edits == map[] ==> after == files
  {
    map p | p in files.Keys + edits.Keys && (p in edits ==> edits[p].Some?) ::
      if p in edits then edits[p].value else files[p]
  }

  function Effect(files: Files, write: Write): Files {
    match write
    case Edited(edits) => ApplyEdits(files, edits)
    case Install(change) => Put(files, change.path, Some(change.candidate))
    case Restore(change, _) => Put(files, change.path, change.previous)
  }

  function Replay(start: Files, log: seq<Write>): Files {
    if log == [] then start else Effect(Replay(start, log[..|log| - 1]), log[|log| - 1])
  }

  predicate DistinctPaths(changes: seq<Change>) {
    forall i, j :: 0 <= i < j < |changes| ==> changes[i].path != changes[j].path
  }

  function ActionOf(change: Change): Action {
    if change.previous.Some? then Modify else Create
  }

  function DigestOf(content: Option<Content>): Option<Digest> {
    if content.Some? then Some(Sha256(content.value)) else None
  }

  predicate Describes(entry: Entry, change: Change) {
    && entry.path == change.path
    && entry.action == ActionOf(change)
    && entry.previousSha256 == DigestOf(change.previous)
    && entry.candidateSha256 == Sha256(change.candidate)
  }

  predicate Matches(entries: seq<Entry>, changes: seq<Change>) {
    |entries| == |changes| && forall i :: 0 <= i < |entries| ==> Describes(entries[i], changes[i])
  }

  /** These entries have this status. */
  predicate Stamped(entries: seq<Entry>, from: nat, to: nat, status: Status) {
    forall j :: from <= j < to && j < |entries| ==> entries[j].status == status
  }

  function PlannedEntries(changes: seq<Change>): (entries: seq<Entry>)
    ensures Matches(entries, changes)
  {
    seq(|changes|, i requires 0 <= i < |changes| =>
      Entry(changes[i].path, ActionOf(changes[i]), DigestOf(changes[i].previous), Sha256(changes[i].candidate),
        Planned))
  }

  function WithStatus(m: Manifest, i: nat, status: Status): (r: Manifest)
    requires i < |m.changes|
    ensures r.state == m.state
    ensures forall changes :: Matches(m.changes, changes) ==> Matches(r.changes, changes)
  {
    m.(changes := m.changes[i := m.changes[i].(status := status)])
  }

  lemma StampedNext(m: Manifest, i: nat, count: nat, done: Status, todo: Status)
    requires i < |m.changes| && Stamped(m.changes, 0, i, done) && Stamped(m.changes, i, count, todo)
    ensures Stamped(WithStatus(m, i, done).changes, 0, i + 1, done)
    ensures Stamped(WithStatus(m, i, done).changes, i + 1, count, todo)
  {
  }

  lemma NoneStamped(entries: seq<Entry>, i: nat, status: Status)
    ensures Stamped(entries, i, i, status)
  {
  }

  /** The three states a journal never leaves. */
  predicate Terminal(state: TxState) {
    state in {Committed, RolledBack, Recovered}
  }

  predicate MayFollow(history: seq<TxState>, next: TxState) {
    if history == [] then next == Preparing
    else
      && !Terminal(history[|history| - 1])
      && (next == Committed ==> history[|history| - 1] == AwaitingVerification)
  }

  predicate LegalHistory(history: seq<TxState>) {
    history == []
    || (LegalHistory(history[..|history| - 1]) && MayFollow(history[..|history| - 1], history[|history| - 1]))
  }

  lemma LegalNext(history: seq<TxState>, next: TxState)
    requires LegalHistory(history) && MayFollow(history, next)
    ensures LegalHistory(history + [next])
  {
    assert (history + [next])[..|history|] == history;
  }

  /** The next event of a history is allowed: a planned candidate replaced exactly the previous
      content, and a restore put back the previous content of a file that held the candidate when
      it was examined, with nothing but foreign edits in between. */
  ghost predicate LawfulWrite(planned: set<Change>, start: Files, past: seq<Write>, write: Write) {
    match write
    case Edited(_) => true
    case Install(change) =>
      change in planned && Get(Replay(start, past), change.path) == change.previous
    case Restore(change, since) =>
      && change in planned
      && since <= |past|
      && OnlyEdits(past, since)
      && Get(Replay(start, past[..since]), change.path) == Some(change.candidate)
  }

  predicate OnlyEdits(log: seq<Write>, since: nat) {
    forall j :: since <= j < |log| ==> log[j].Edited?
  }

  /** The history grew by foreign edits only. */
  predicate EditsSince(before: seq<Write>, after: seq<Write>) {
    |before| <= |after| && after[..|before|] == before && OnlyEdits(after, |before|)
  }

  lemma EditsSinceTransitive(a: seq<Write>, b: seq<Write>, c: seq<Write>)
    requires EditsSince(a, b) && EditsSince(b, c)
    ensures EditsSince(a, c)
  {
    assert c[..|a|] == b[..|a|];
    forall j | |a| <= j < |c| ensures c[j].Edited? {
      if j < |b| {
        assert c[..|b|][j] == b[j];
      }
    }
  }

  ghost predicate Lawful(planned: set<Change>, start: Files, log: seq<Write>) {
    log == []
    || (Lawful(planned, start, log[..|log| - 1]) && LawfulWrite(planned, start, log[..|log| - 1], log[|log| - 1]))
  }

  /** The history explains the files, and every event in it is allowed. */
  ghost predicate Explains(planned: set<Change>, start: Files, log: seq<Write>, files: Files) {
    files == Replay(start, log) && Lawful(planned, start, log)
  }

  lemma ExplainsNext(planned: set<Change>, start: Files, log: seq<Write>, files: Files, write: Write)
    requires Explains(planned, start, log, files) && LawfulWrite(planned, start, log, write)
    ensures Explains(planned, start, log + [write], Effect(files, write))
  {
    assert (log + [write])[..|log|] == log;
  }

  lemma {:induction false} LawfulForMorePlans(planned: set<Change>, more: set<Change>, start: Files, log: seq<Write>)
    requires planned <= more && Lawful(planned, start, log)
    ensures Lawful(more, start, log)
  {
    if log != [] {
      LawfulForMorePlans(planned, more, start, log[..|log| - 1]);
    }
  }

  /** No other program touches any file while the script runs. */
  predicate Calm(script: seq<Event>) {
    forall i :: 0 <= i < |script| ==> script[i].edits == map[]
  }

  /** No I/O error is reported from position `from` on. */
  predicate Faultless(script: seq<Event>, from: nat) {
    forall i :: from <= i < |script| ==> !script[i].fails
  }

  /** From there on at least this many operations are left, and none of them fails. */
  predicate Enough(script: seq<Event>, clock: nat, steps: nat) {
    Faultless(script, clock) && |script| >= clock + steps
  }

  /** This operation is reached, and does not fail. */
  predicate WorksAt(script: seq<Event>, k: nat) {
    k < |script| && !script[k].fails
  }

  /** Some operation of this stretch fails. */
  predicate Faulted(script: seq<Event>, from: nat, to: nat) {
    exists k :: from <= k < to && k < |script| && script[k].fails
  }

  /** From there on one operation at most fails. */
  predicate OneFault(script: seq<Event>, from: nat) {
    forall i, j :: from <= i < j < |script| ==> !(script[i].fails && script[j].fails)
  }

  lemma FaultSpent(script: seq<Event>, from: nat, to: nat)
    requires OneFault(script, from) && Faulted(script, from, to)
    ensures Faultless(script, to)
  {
  }

  lemma OneFaultLater(script: seq<Event>, from: nat, later: nat)
    requires from <= later
    ensures OneFault(script, from) ==> OneFault(script, later)
  {
  }

  /** These operations all succeed, and nobody edits a file meanwhile. */
  predicate QuietAt(script: seq<Event>, clock: nat, steps: nat) {
    Enough(script, clock, steps) && forall k :: clock <= k < clock + steps ==> script[k].edits == map[]
  }

  lemma FaultlessLater(script: seq<Event>, from: nat, later: nat)
    requires from <= later
    ensures Faultless(script, from) ==> Faultless(script, later)
  {
  }

  /** No other program ever puts `content` at `path`. */
  predicate NeverEdits(script: seq<Event>, path: string, content: Option<Content>) {
    forall i :: 0 <= i < |script| && path in script[i].edits ==> script[i].edits[path] != content
  }

  /** What a call may do to files it does not write itself: only what the script's edits say. */
  ghost predicate Drift(before: Files, after: Files, script: seq<Event>) {
    forall p, c :: NeverEdits(script, p, c) && Get(before, p) != c ==> Get(after, p) != c
  }

  ghost predicate DriftExcept(path: string, before: Files, after: Files, script: seq<Event>) {
    forall p, c :: p != path && NeverEdits(script, p, c) && Get(before, p) != c ==> Get(after, p) != c
  }

  ghost predicate SameExcept(path: string, before: Files, after: Files) {
    forall p :: p != path ==> Get(after, p) == Get(before, p)
  }

  predicate HasPath(plan: seq<Change>, path: string) {
    exists i :: 0 <= i < |plan| && plan[i].path == path
  }

  /** The candidate is in place and is not what was there before. */
  predicate Replaced(files: Files, change: Change) {
    Get(files, change.path) == Some(change.candidate) && change.previous != Some(change.candidate)
  }

  predicate Before(files: Files, change: Change) {
    Get(files, change.path) == change.previous
  }

  predicate AllBefore(files: Files, plan: seq<Change>) {
    forall i :: 0 <= i < |plan| ==> Before(files, plan[i])
  }

  predicate AllInstalled(files: Files, plan: seq<Change>) {
    forall i :: 0 <= i < |plan| ==> Get(files, plan[i].path) == Some(plan[i].candidate)
  }

  /** What a transaction keeps beside the files: its journal, backups, staged and restore copies. */
  datatype Shelf = Shelf(
    manifest: Option<Manifest>,
    backups: map<nat, Content>,
    staged: map<nat, Content>,
    restoring: map<string, Content>)
  {
    predicate Empty() {
      staged == map[] && restoring == map[]
    }

    predicate In(states: set<TxState>) {
      manifest.Some? && manifest.value.state in states
    }
  }

  ghost predicate HeldAt(plan: seq<Change>, shelf: Shelf, files: Files, i: nat)
    requires i < |plan|
  {
    && (Before(files, plan[i]) || Replaced(files, plan[i]))
    && (shelf.manifest.None? ==> Before(files, plan[i]))
    && (Replaced(files, plan[i]) && plan[i].previous.Some? ==>
      i in shelf.backups && shelf.backups[i] == plan[i].previous.value)
    && (plan[i].path in shelf.restoring ==> Replaced(files, plan[i]) && plan[i].previous.Some?)
  }

  /** Everything is there to bring back every previous content, as long as only this transaction
      writes the files it planned; finished journals mean what they say. */
  ghost predicate Held(plan: seq<Change>, shelf: Shelf, files: Files) {
    && (forall i :: 0 <= i < |plan| ==> HeldAt(plan, shelf, files, i))
    && (forall i :: i in shelf.staged ==> i < |plan|)
    && (forall p :: p in shelf.restoring ==> HasPath(plan, p))
    && (shelf.manifest.None? ==> shelf.Empty())
    && (shelf.manifest.Some? ==> Truthful(shelf.manifest.value.state, plan, shelf, files))
  }

  /** What a journal state says about the files. */
  predicate Truthful(state: TxState, plan: seq<Change>, shelf: Shelf, files: Files) {
    && (state in {RolledBack, Recovered} ==> AllBefore(files, plan) && shelf.Empty())
    && (state in {AwaitingVerification, Committed} ==> AllInstalled(files, plan) && shelf.Empty())
  }

  /** Undoing one file, completely or only up to a leftover restore copy, keeps the rest held. */
  lemma HeldAfterUndo(plan: seq<Change>, s: Shelf, t: Shelf, files: Files, after: Files, i: nat)
    requires i < |plan| && DistinctPaths(plan) && Held(plan, s, files)
    requires s.In({RollingBack, Recovering}) && t.In({RollingBack, Recovering})
    requires t.backups == s.backups && t.staged == s.staged
    requires t.restoring - {plan[i].path} == s.restoring - {plan[i].path}
    requires SameExcept(plan[i].path, files, after)
    requires
      || (Before(after, plan[i]) && plan[i].path !in t.restoring)
      || (after == files && (t.restoring == s.restoring || (Replaced(files, plan[i]) && plan[i].previous.Some?)))
    ensures Held(plan, t, after)
  {
    forall j | 0 <= j < |plan| ensures HeldAt(plan, t, after, j) {
      assert HeldAt(plan, s, files, j);
      if j != i {
        assert plan[j].path != plan[i].path;
        assert plan[j].path in t.restoring <==> plan[j].path in t.restoring - {plan[i].path};
      }
    }
    forall p | p in t.restoring ensures HasPath(plan, p) {
      if p != plan[i].path {
        assert p in t.restoring - {plan[i].path};
      }
    }
  }

  /** From index `from` on, no file still shows a replaced candidate, unless some other program may
      have put one there. */
  ghost predicate NoneReplaced(files: Files, plan: seq<Change>, from: nat, script: seq<Event>) {
    forall j :: from <= j < |plan| && NeverEdits(script, plan[j].path, Some(plan[j].candidate)) ==>
      !Replaced(files, plan[j])
  }

  predicate UnchangedUpTo(before: Files, after: Files, plan: seq<Change>, count: nat) {
    forall j :: 0 <= j < count && j < |plan| ==> Get(after, plan[j].path) == Get(before, plan[j].path)
  }

  ghost predicate DriftOutside(plan: seq<Change>, before: Files, after: Files, script: seq<Event>) {
    forall p, c :: !HasPath(plan, p) && NeverEdits(script, p, c) && Get(before, p) != c ==> Get(after, p) != c
  }

  ghost predicate SameOutside(plan: seq<Change>, before: Files, after: Files) {
    forall p :: !HasPath(plan, p) ==> Get(after, p) == Get(before, p)
  }

  lemma NoDrift(plan: seq<Change>, files: Files, script: seq<Event>)
    ensures DriftOutside(plan, files, files, script)
  {
  }

  lemma DriftFurther(plan: seq<Change>, i: nat, before: Files, middle: Files, after: Files, script: seq<Event>)
    requires i < |plan| && DriftOutside(plan, before, middle, script)
    requires DriftExcept(plan[i].path, middle, after, script)
    ensures DriftOutside(plan, before, after, script)
  {
    assert HasPath(plan, plan[i].path);
  }

  /** One file was written, and then only other programs wrote. */
  lemma DriftThen(change: Change, before: Files, middle: Files, after: Files, script: seq<Event>)
    requires DriftExcept(change.path, before, middle, script) && Drift(middle, after, script)
    ensures DriftExcept(change.path, before, after, script)
    ensures NeverEdits(script, change.path, Some(change.candidate)) && !Replaced(middle, change) ==>
      !Replaced(after, change)
  {
  }

  lemma DriftLast(plan: seq<Change>, before: Files, middle: Files, after: Files, script: seq<Event>)
    requires DriftOutside(plan, before, middle, script) && Drift(middle, after, script)
    ensures DriftOutside(plan, before, after, script)
    ensures NoneReplaced(middle, plan, 0, script) ==> NoneReplaced(after, plan, 0, script)
  {
  }

  lemma CalmStays(plan: seq<Change>, before: Files, after: Files, script: seq<Event>)
    requires Calm(script) && DriftOutside(plan, before, after, script)
    ensures SameOutside(plan, before, after)
  {
    forall p | !HasPath(plan, p) ensures Get(after, p) == Get(before, p) {
      assert NeverEdits(script, p, Get(after, p));
    }
  }

  /** Restoring entry i adds it to the files that show no replaced candidate. */
  lemma NoneReplacedNext(plan: seq<Change>, i: nat, before: Files, after: Files, script: seq<Event>)
    requires i < |plan| && DistinctPaths(plan)
    requires NoneReplaced(before, plan, i + 1, script)
    requires DriftExcept(plan[i].path, before, after, script)
    requires NeverEdits(script, plan[i].path, Some(plan[i].candidate)) ==> !Replaced(after, plan[i])
    ensures NoneReplaced(after, plan, i, script)
  {
  }

  lemma HeldAfterCleanup(plan: seq<Change>, s: Shelf, t: Shelf, files: Files)
    requires Held(plan, s, files)
    requires s.In({RollingBack, Recovering})
    requires t.manifest == s.manifest && t.backups == s.backups && t.restoring == s.restoring
    requires t.staged.Keys <= s.staged.Keys
    ensures Held(plan, t, files)
    ensures AllBefore(files, plan) && (forall i :: i in t.staged ==> i >= |plan|) ==> t.Empty()
  {
    forall i | 0 <= i < |plan| ensures HeldAt(plan, t, files, i) {
      assert HeldAt(plan, s, files, i);
    }
    if AllBefore(files, plan) {
      forall p ensures p !in t.restoring {
        if HasPath(plan, p) {
          var i :| 0 <= i < |plan| && plan[i].path == p;
          assert HeldAt(plan, s, files, i) && Before(files, plan[i]);
        }
      }
      assert t.restoring == map[];
      if forall i :: i in t.staged ==> i >= |plan| {
        assert t.staged.Keys == {};
      }
    }
  }

  /** The first `count` changes have a good backup if they need one. */
  predicate BackedUp(plan: seq<Change>, backups: map<nat, Content>, count: nat) {
    forall j :: 0 <= j < count && j < |plan| && plan[j].previous.Some? ==>
      j in backups && backups[j] == plan[j].previous.value
  }

  /** Exactly the changes in `from..to` have a staged copy of their candidate. */
  predicate StagedBetween(plan: seq<Change>, staged: map<nat, Content>, from: nat, to: nat)
    requires to <= |plan|
  {
    && (forall j :: j in staged ==> from <= j < to)
    && (forall j :: from <= j < to ==> j in staged && staged[j] == plan[j].candidate)
  }

  /** The first `count` candidates are in place, the others are still to come. */
  predicate InstalledUpTo(files: Files, plan: seq<Change>, count: nat) {
    && (forall j :: 0 <= j < count && j < |plan| ==> Get(files, plan[j].path) == Some(plan[j].candidate))
    && (forall j :: count <= j < |plan| ==> Before(files, plan[j]))
  }

  lemma HeldWhileApplying(plan: seq<Change>, s: Shelf, files: Files, count: nat)
    requires s.manifest.Some? && !s.In({RolledBack, Recovered, AwaitingVerification, Committed})
    requires count <= |plan| && InstalledUpTo(files, plan, count)
    requires count > 0 ==> BackedUp(plan, s.backups, |plan|)
    requires s.restoring == map[] && forall j :: j in s.staged ==> j < |plan|
    ensures Held(plan, s, files)
  {
    forall i | 0 <= i < |plan| ensures HeldAt(plan, s, files, i) {
    }
  }

  ghost predicate AlikeExcept(k: nat, a: map<nat, Content>, b: map<nat, Content>) {
    forall j :: j != k ==> (j in a <==> j in b) && (j in a && j in b ==> a[j] == b[j])
  }

  lemma InstalledFirst(plan: seq<Change>, files: Files)
    ensures AllBefore(files, plan) ==> InstalledUpTo(files, plan, 0)
  {
  }

  lemma InstalledNext(plan: seq<Change>, i: nat, before: Files, after: Files, moved: bool)
    requires i < |plan| && DistinctPaths(plan) && SameExcept(plan[i].path, before, after)
    requires if moved then Get(after, plan[i].path) == Some(plan[i].candidate) else after == before
    ensures InstalledUpTo(before, plan, i) ==> InstalledUpTo(after, plan, if moved then i + 1 else i)
  {
  }

  /** Writing a state into the journal keeps everything held, if the state is true of the files. */
  lemma HeldInState(plan: seq<Change>, s: Shelf, t: Shelf, files: Files)
    requires Held(plan, s, files) && s.manifest.Some?
    requires t.manifest.Some? && t == s.(manifest := t.manifest)
    requires Truthful(t.manifest.value.state, plan, t, files)
    ensures Held(plan, t, files)
  {
    forall i | 0 <= i < |plan| ensures HeldAt(plan, t, files, i) {
      assert HeldAt(plan, s, files, i);
    }
  }

  /** What a restore that nobody disturbs makes of one file. */
  function RestoredContent(files: Files, change: Change): Option<Content> {
    if Replaced(files, change) then change.previous else Get(files, change.path)
  }

  predicate RestoredFrom(before: Files, after: Files, plan: seq<Change>, from: nat) {
    forall j :: from <= j < |plan| ==> Get(after, plan[j].path) == RestoredContent(before, plan[j])
  }

  /** An undisturbed restore has come down to entry `from`. */
  predicate RestoredDownTo(before: Files, after: Files, plan: seq<Change>, from: nat) {
    RestoredFrom(before, after, plan, from) && UnchangedUpTo(before, after, plan, from)
  }

  lemma RestoredNext(plan: seq<Change>, i: nat, before: Files, middle: Files, after: Files)
    requires i < |plan| && DistinctPaths(plan) && RestoredDownTo(before, middle, plan, i + 1)
    requires SameExcept(plan[i].path, middle, after)
    requires Get(after, plan[i].path) == RestoredContent(middle, plan[i])
    ensures RestoredDownTo(before, after, plan, i)
  {
  }

  /** The files after an undisturbed restore of one plan. */
  function Restored(files: Files, plan: seq<Change>): Files {
    if plan == [] then files
    else
      var last := plan[|plan| - 1];
      Put(Restored(files, plan[..|plan| - 1]), last.path, RestoredContent(files, last))
  }

  lemma {:induction false} RestoredAt(files: Files, plan: seq<Change>)
    requires DistinctPaths(plan)
    ensures RestoredFrom(files, Restored(files, plan), plan, 0)
    ensures SameOutside(plan, files, Restored(files, plan))
  {
    if plan != [] {
      var init, last := plan[..|plan| - 1], plan[|plan| - 1];
      RestoredAt(files, init);
      GetPut(Restored(files, init), last.path, RestoredContent(files, last));
      assert plan == init + [last];
      forall p | !HasPath(plan, p) ensures Get(Restored(files, plan), p) == Get(files, p) {
        assert plan[|plan| - 1].path != p;
        assert !HasPath(init, p) by {
          assert forall i :: 0 <= i < |init| ==> init[i] == plan[i];
        }
      }
      forall j | 0 <= j < |plan| ensures Get(Restored(files, plan), plan[j].path) == RestoredContent(files, plan[j]) {
        if j < |init| {
          assert init[j] == plan[j];
        }
      }
    }
  }

  lemma SameFiles(a: Files, b: Files)
    requires forall p :: Get(a, p) == Get(b, p)
    ensures a == b
  {
    forall p ensures p in a <==> p in b {
      assert Get(a, p) == Get(b, p);
    }
    forall p | p in a ensures a[p] == b[p] {
      assert Get(a, p) == Get(b, p);
    }
  }

  lemma RestoredUnique(before: Files, after: Files, plan: seq<Change>)
    requires DistinctPaths(plan)
    requires RestoredFrom(before, after, plan, 0) && SameOutside(plan, before, after)
    ensures after == Restored(before, plan)
  {
    RestoredAt(before, plan);
    forall p ensures Get(after, p) == Get(Restored(before, plan), p) {
      if HasPath(plan, p) {
        var i :| 0 <= i < |plan| && plan[i].path == p;
        assert Get(after, plan[i].path) == RestoredContent(before, plan[i]);
        assert Get(Restored(before, plan), plan[i].path) == RestoredContent(before, plan[i]);
      }
    }
    SameFiles(after, Restored(before, plan));
  }

  lemma HeldIsRestored(plan: seq<Change>, s: Shelf, before: Files, after: Files)
    requires Held(plan, s, before) && RestoredFrom(before, after, plan, 0)
    ensures AllBefore(after, plan)
  {
    forall i | 0 <= i < |plan| ensures Before(after, plan[i]) {
      assert HeldAt(plan, s, before, i);
    }
  }

  /** No other program ever touches this path. */
  predicate Untouched(script: seq<Event>, path: string) {
    forall i :: 0 <= i < |script| ==> path !in script[i].edits
  }

  /** The first `count` candidates are in place, wherever no other program interferes. */
  predicate InstalledIfUntouched(files: Files, plan: seq<Change>, count: nat, script: seq<Event>) {
    forall j :: 0 <= j < count && j < |plan| && Untouched(script, plan[j].path) ==>
      Get(files, plan[j].path) == Some(plan[j].candidate)
  }

  lemma InstalledStays(before: Files, after: Files, plan: seq<Change>, count: nat, script: seq<Event>)
    requires InstalledIfUntouched(before, plan, count, script) && Drift(before, after, script)
    ensures InstalledIfUntouched(after, plan, count, script)
  {
    forall j | 0 <= j < count && j < |plan| && Untouched(script, plan[j].path)
      ensures Get(after, plan[j].path) == Some(plan[j].candidate)
    {
      assert NeverEdits(script, plan[j].path, Get(after, plan[j].path));
    }
  }
}
