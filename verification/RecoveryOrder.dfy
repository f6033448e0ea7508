/** In which order several journals may be recovered. */
module RecoveryOrder {
  import opened Basics
  import opened JournalModel
  import opened UndoModel

  /** The files after undisturbed restores of the pending ones among the first `count` plans, in that order. */
  function RestoredAll(files: Files, plans: seq<seq<Change>>, pending: seq<bool>, count: nat): Files
    requires |plans| == |pending| && count <= |plans|
  {
    if count == 0 then files
    else
      var before := RestoredAll(files, plans, pending, count - 1);
      if pending[count - 1] then Restored(before, plans[count - 1]) else before
  }

  ghost predicate DisjointPaths(a: seq<Change>, b: seq<Change>) {
    forall p :: HasPath(a, p) ==> !HasPath(b, p)
  }

  ghost predicate PlansDisjoint(plans: seq<seq<Change>>) {
    && (forall k :: 0 <= k < |plans| ==> DistinctPaths(plans[k]))
    && forall j, k :: 0 <= j < k < |plans| ==> DisjointPaths(plans[j], plans[k])
  }

  /** A transaction went from one root to the other: it planned for the first, wrote only planned files,
      and each of them has its candidate or not yet. A crash anywhere in an apply leaves just that. */
  ghost predicate Applied(before: Files, after: Files, plan: seq<Change>) {
    && DistinctPaths(plan) && AllBefore(before, plan) && SameOutside(plan, before, after)
    && forall i :: 0 <= i < |plan| ==> Before(after, plan[i]) || Replaced(after, plan[i])
  }

  lemma UndoneAt(before: Files, after: Files, plan: seq<Change>, i: nat)
    requires Applied(before, after, plan) && i < |plan|
    ensures RestoredContent(after, plan[i]) == Get(before, plan[i].path)
  {
    assert Before(before, plan[i]);
  }

  /** Restoring what a transaction did, however far it came, gives the files back. */
  lemma UndoneIsBefore(before: Files, after: Files, plan: seq<Change>)
    requires Applied(before, after, plan)
    ensures Restored(after, plan) == before
  {
    RestoredAt(after, plan);
    forall p ensures Get(Restored(after, plan), p) == Get(before, p) {
      if HasPath(plan, p) {
        var i :| 0 <= i < |plan| && plan[i].path == p;
        UndoneAt(before, after, plan, i);
      }
    }
    SameFiles(Restored(after, plan), before);
  }

  /** Pending transactions applied one on top of the other: the root before the first, and after each.
      `owner` says which listed plan made a level, `age` on which level a listed plan works. */
  datatype Stack = Stack(levels: seq<Files>, owner: seq<nat>, age: seq<nat>)

  ghost predicate IsStack(s: Stack, plans: seq<seq<Change>>, pending: seq<bool>) {
    && |plans| == |pending| == |s.age| && |s.levels| == |s.owner| + 1
    && (forall i :: 0 <= i < |plans| && pending[i] ==> s.age[i] < |s.owner| && s.owner[s.age[i]] == i)
    && (forall k :: 0 <= k < |s.owner| ==>
      && s.owner[k] < |plans| && pending[s.owner[k]] && s.age[s.owner[k]] == k
      && Applied(s.levels[k], s.levels[k + 1], plans[s.owner[k]]))
  }

  function Top(s: Stack): Files
    requires s.levels != []
  {
    s.levels[|s.levels| - 1]
  }

  ghost predicate Overlap(a: seq<Change>, b: seq<Change>) {
    exists p :: HasPath(a, p) && HasPath(b, p)
  }

  /** Of two pending plans with a common path the newer one is listed first. */
  ghost predicate NewestFirst(s: Stack, plans: seq<seq<Change>>, pending: seq<bool>)
    requires IsStack(s, plans, pending)
  {
    forall i, j :: 0 <= i < j < |plans| && pending[i] && pending[j] && Overlap(plans[i], plans[j]) ==>
      s.age[i] > s.age[j]
  }

  /** At this path the listed plans before `from` are undone: they are those on the levels from `m` on. */
  ghost predicate DownTo(s: Stack, plans: seq<seq<Change>>, pending: seq<bool>, from: nat, p: string, m: nat)
    requires IsStack(s, plans, pending)
  {
    && m <= |s.owner|
    && forall i :: 0 <= i < |plans| && pending[i] && HasPath(plans[i], p) ==> (i < from <==> s.age[i] >= m)
  }

  /** Levels that do not touch a path leave it alone. */
  lemma {:induction false} Untouching(s: Stack, plans: seq<seq<Change>>, pending: seq<bool>, lo: nat, hi: nat,
      p: string)
    requires IsStack(s, plans, pending) && lo <= hi <= |s.owner|
    requires forall k :: lo <= k < hi ==> !HasPath(plans[s.owner[k]], p)
    ensures Get(s.levels[hi], p) == Get(s.levels[lo], p)
    decreases hi
  {
    if lo < hi {
      Untouching(s, plans, pending, lo, hi - 1, p);
      assert Applied(s.levels[hi - 1], s.levels[hi], plans[s.owner[hi - 1]]);
    }
  }

  /** When a plan's turn comes, its paths hold what the plan left there. */
  lemma TurnComes(s: Stack, plans: seq<seq<Change>>, pending: seq<bool>, i: nat, p: string, m: nat)
    requires IsStack(s, plans, pending) && NewestFirst(s, plans, pending)
    requires i < |plans| && pending[i] && HasPath(plans[i], p) && DownTo(s, plans, pending, i, p, m)
    ensures s.age[i] < m && Get(s.levels[m], p) == Get(s.levels[s.age[i] + 1], p)
    ensures DownTo(s, plans, pending, i + 1, p, s.age[i])
  {
    forall j | 0 <= j < |plans| && pending[j] && HasPath(plans[j], p)
      ensures i < j ==> s.age[j] < s.age[i]
      ensures j < i ==> s.age[j] >= m
    {
      if i < j {
        assert Overlap(plans[i], plans[j]);
      }
    }
    forall k | s.age[i] + 1 <= k < m ensures !HasPath(plans[s.owner[k]], p) {
      assert s.age[s.owner[k]] == k;
    }
    Untouching(s, plans, pending, s.age[i] + 1, m, p);
  }

  /** One restore at one path. */
  lemma PathStep(s: Stack, plans: seq<seq<Change>>, pending: seq<bool>, i: nat, files: Files, p: string, m: nat)
    requires IsStack(s, plans, pending) && NewestFirst(s, plans, pending) && i < |plans| && pending[i]
    requires DownTo(s, plans, pending, i, p, m) && Get(files, p) == Get(s.levels[m], p)
    ensures var next := if HasPath(plans[i], p) then s.age[i] else m;
      DownTo(s, plans, pending, i + 1, p, next) && Get(Restored(files, plans[i]), p) == Get(s.levels[next], p)
  {
    var k := s.age[i];
    assert Applied(s.levels[k], s.levels[k + 1], plans[s.owner[k]]);
    RestoredAt(files, plans[i]);
    if HasPath(plans[i], p) {
      TurnComes(s, plans, pending, i, p, m);
      var e :| 0 <= e < |plans[i]| && plans[i][e].path == p;
      UndoneAt(s.levels[k], s.levels[k + 1], plans[i], e);
      assert Get(Restored(files, plans[i]), plans[i][e].path) == RestoredContent(files, plans[i][e]);
    }
  }

  /** Each path goes down through the levels as the listing goes on. */
  lemma {:induction false} PathAt(s: Stack, plans: seq<seq<Change>>, pending: seq<bool>, count: nat, p: string)
    returns (m: nat)
    requires IsStack(s, plans, pending) && NewestFirst(s, plans, pending) && count <= |plans|
    ensures DownTo(s, plans, pending, count, p, m)
    ensures Get(RestoredAll(Top(s), plans, pending, count), p) == Get(s.levels[m], p)
  {
    if count == 0 {
      m := |s.owner|;
    } else {
      var i := count - 1;
      m := PathAt(s, plans, pending, i, p);
      if pending[i] {
        PathStep(s, plans, pending, i, RestoredAll(Top(s), plans, pending, i), p, m);
        m := if HasPath(plans[i], p) then s.age[i] else m;
      }
    }
  }

  /** Any order that takes overlapping transactions off newest first gives the original root. */
  lemma NewestFirstRestores(s: Stack, plans: seq<seq<Change>>, pending: seq<bool>)
    requires IsStack(s, plans, pending) && NewestFirst(s, plans, pending)
    ensures RestoredAll(Top(s), plans, pending, |plans|) == s.levels[0]
  {
    var result := RestoredAll(Top(s), plans, pending, |plans|);
    forall p ensures Get(result, p) == Get(s.levels[0], p) {
      var m := PathAt(s, plans, pending, |plans|, p);
      forall k | 0 <= k < m ensures !HasPath(plans[s.owner[k]], p) {
        assert s.age[s.owner[k]] == k;
      }
      Untouching(s, plans, pending, 0, m, p);
    }
    SameFiles(result, s.levels[0]);
  }

  /** Each pending journal is recoverable in the files that the ones listed before it leave behind. */
  ghost predicate Ready(files: Files, plans: seq<seq<Change>>, shelves: seq<Shelf>, pending: seq<bool>) {
    && |plans| == |pending| == |shelves|
    && forall i :: 0 <= i < |plans| && pending[i] ==> Held(plans[i], shelves[i], RestoredAll(files, plans, pending, i))
  }

  /** When its turn comes, nothing in any pending journal makes its undoing raise. */
  ghost predicate EachCanUndo(files: Files, plans: seq<seq<Change>>, shelves: seq<Shelf>, pending: seq<bool>) {
    && |plans| == |pending| == |shelves|
    && forall i :: 0 <= i < |plans| && pending[i] ==> TurnCanUndo(files, plans, shelves, pending, i)
  }

  ghost predicate TurnCanUndo(files: Files, plans: seq<seq<Change>>, shelves: seq<Shelf>, pending: seq<bool>, i: nat)
    requires |plans| == |pending| == |shelves| && i < |plans|
  {
    var now := RestoredAll(files, plans, pending, i);
    shelves[i].manifest.Some? && CanUndoAll(plans[i], shelves[i].manifest.value.changes, shelves[i].backups, now)
  }

  lemma ReadyCanUndo(files: Files, plans: seq<seq<Change>>, shelves: seq<Shelf>, pending: seq<bool>)
    requires Ready(files, plans, shelves, pending)
    requires forall i :: 0 <= i < |plans| && pending[i] ==>
      shelves[i].manifest.Some? && |shelves[i].manifest.value.changes| == |plans[i]|
    ensures EachCanUndo(files, plans, shelves, pending)
  {
    forall i | 0 <= i < |plans| && pending[i] ensures TurnCanUndo(files, plans, shelves, pending, i) {
      HeldCanUndo(plans[i], shelves[i], shelves[i].manifest.value.changes, RestoredAll(files, plans, pending, i));
    }
  }

  lemma HeldOnItsPaths(plan: seq<Change>, shelf: Shelf, before: Files, after: Files)
    requires Held(plan, shelf, before)
    requires forall i :: 0 <= i < |plan| ==> Get(after, plan[i].path) == Get(before, plan[i].path)
    ensures Held(plan, shelf, after)
  {
    forall i | 0 <= i < |plan| ensures HeldAt(plan, shelf, after, i) {
      assert HeldAt(plan, shelf, before, i);
    }
  }

  /** Newest first, each journal is recoverable again when its turn comes, if it was when it was left. */
  lemma NewestFirstIsReady(s: Stack, plans: seq<seq<Change>>, shelves: seq<Shelf>, pending: seq<bool>)
    requires IsStack(s, plans, pending) && NewestFirst(s, plans, pending) && |shelves| == |plans|
    requires forall i :: 0 <= i < |plans| && pending[i] ==> Held(plans[i], shelves[i], s.levels[s.age[i] + 1])
    ensures Ready(Top(s), plans, shelves, pending)
  {
    forall i | 0 <= i < |plans| && pending[i]
      ensures Held(plans[i], shelves[i], RestoredAll(Top(s), plans, pending, i))
    {
      var now := RestoredAll(Top(s), plans, pending, i);
      forall e | 0 <= e < |plans[i]|
        ensures Get(now, plans[i][e].path) == Get(s.levels[s.age[i] + 1], plans[i][e].path)
      {
        var p := plans[i][e].path;
        assert HasPath(plans[i], p);
        var m := PathAt(s, plans, pending, i, p);
        TurnComes(s, plans, pending, i, p, m);
      }
      HeldOnItsPaths(plans[i], shelves[i], s.levels[s.age[i] + 1], now);
    }
  }

  lemma {:induction false} RestoredElsewhere(files: Files, plans: seq<seq<Change>>, pending: seq<bool>, count: nat,
      p: string)
    requires |plans| == |pending| && count <= |plans| && PlansDisjoint(plans)
    requires forall k :: 0 <= k < count && pending[k] ==> !HasPath(plans[k], p)
    ensures Get(RestoredAll(files, plans, pending, count), p) == Get(files, p)
  {
    if count > 0 {
      RestoredAt(RestoredAll(files, plans, pending, count - 1), plans[count - 1]);
      RestoredElsewhere(files, plans, pending, count - 1, p);
    }
  }

  /** With disjoint plans every file is restored as if its journal were the only one. */
  lemma {:induction false} RestoredIndependently(
    files: Files, plans: seq<seq<Change>>, pending: seq<bool>, count: nat, k: nat, i: nat)
    requires |plans| == |pending| && k < count <= |plans| && pending[k] && i < |plans[k]| && PlansDisjoint(plans)
    ensures Get(RestoredAll(files, plans, pending, count), plans[k][i].path) == RestoredContent(files, plans[k][i])
  {
    var p, last := plans[k][i].path, count - 1;
    assert HasPath(plans[k], p);
    var before := RestoredAll(files, plans, pending, last);
    RestoredAt(before, plans[last]);
    if k == last {
      forall j | 0 <= j < last ensures !HasPath(plans[j], p) {
        assert DisjointPaths(plans[j], plans[k]);
      }
      RestoredElsewhere(files, plans, pending, last, p);
    } else {
      assert DisjointPaths(plans[k], plans[last]);
      RestoredIndependently(files, plans, pending, last, k, i);
    }
  }

  /** Nothing more need be known of disjoint journals than that each is recoverable by itself: the result
      has every planned file as planned for, and every other file untouched. */
  lemma DisjointRestores(files: Files, plans: seq<seq<Change>>, pending: seq<bool>)
    requires |plans| == |pending| && PlansDisjoint(plans)
    requires forall k, i :: 0 <= k < |plans| && pending[k] && 0 <= i < |plans[k]| ==>
      Before(files, plans[k][i]) || Replaced(files, plans[k][i])
    ensures var result := RestoredAll(files, plans, pending, |plans|);
      && (forall k :: 0 <= k < |plans| && pending[k] ==> AllBefore(result, plans[k]))
      && forall p :: (forall k :: 0 <= k < |plans| && pending[k] ==> !HasPath(plans[k], p)) ==>
           Get(result, p) == Get(files, p)
  {
    var result := RestoredAll(files, plans, pending, |plans|);
    forall k, i | 0 <= k < |plans| && pending[k] && 0 <= i < |plans[k]| ensures Before(result, plans[k][i]) {
      RestoredIndependently(files, plans, pending, |plans|, k, i);
    }
    forall p | forall k :: 0 <= k < |plans| && pending[k] ==> !HasPath(plans[k], p)
      ensures Get(result, p) == Get(files, p)
    {
      RestoredElsewhere(files, plans, pending, |plans|, p);
    }
  }

  /** Disjoint journals that are all recoverable stay so in whatever order the others are recovered. */
  lemma DisjointIsReady(files: Files, plans: seq<seq<Change>>, shelves: seq<Shelf>, pending: seq<bool>)
    requires |plans| == |pending| == |shelves| && PlansDisjoint(plans)
    requires forall i :: 0 <= i < |plans| && pending[i] ==> Held(plans[i], shelves[i], files)
    ensures Ready(files, plans, shelves, pending)
  {
    forall i | 0 <= i < |plans| && pending[i]
      ensures Held(plans[i], shelves[i], RestoredAll(files, plans, pending, i))
    {
      var now := RestoredAll(files, plans, pending, i);
      forall e | 0 <= e < |plans[i]| ensures Get(now, plans[i][e].path) == Get(files, plans[i][e].path) {
        assert HasPath(plans[i], plans[i][e].path);
        forall j | 0 <= j < i ensures !HasPath(plans[j], plans[i][e].path) {
          assert DisjointPaths(plans[j], plans[i]);
        }
        RestoredElsewhere(files, plans, pending, i, plans[i][e].path);
      }
      HeldOnItsPaths(plans[i], shelves[i], files, now);
    }
  }

  ghost function PendingSet(plans: seq<seq<Change>>, pending: seq<bool>): set<seq<Change>>
    requires |plans| == |pending|
  {
    set k | 0 <= k < |plans| && pending[k] :: plans[k]
  }

  lemma SameAtEveryPath(
    files: Files, plans: seq<seq<Change>>, pending: seq<bool>, plans': seq<seq<Change>>, pending': seq<bool>, p: string)
    requires |plans| == |pending| && |plans'| == |pending'|
    requires PlansDisjoint(plans) && PlansDisjoint(plans')
    requires PendingSet(plans, pending) == PendingSet(plans', pending')
    ensures Get(RestoredAll(files, plans, pending, |plans|), p) ==
      Get(RestoredAll(files, plans', pending', |plans'|), p)
  {
    if plan: seq<Change> :| plan in PendingSet(plans, pending) && HasPath(plan, p) {
      var i :| 0 <= i < |plan| && plan[i].path == p;
      var k :| 0 <= k < |plans| && pending[k] && plans[k] == plan;
      RestoredIndependently(files, plans, pending, |plans|, k, i);
      assert plan in PendingSet(plans', pending');
      var k' :| 0 <= k' < |plans'| && pending'[k'] && plans'[k'] == plan;
      RestoredIndependently(files, plans', pending', |plans'|, k', i);
    } else {
      RestoredElsewhere(files, plans, pending, |plans|, p);
      RestoredElsewhere(files, plans', pending', |plans'|, p);
    }
  }

  /** Journals with disjoint paths can be recovered in any order: only which plans are pending counts. */
  lemma AnyOrder(files: Files, plans: seq<seq<Change>>, pending: seq<bool>, plans': seq<seq<Change>>,
      pending': seq<bool>)
    requires |plans| == |pending| && |plans'| == |pending'|
    requires PlansDisjoint(plans) && PlansDisjoint(plans')
    requires PendingSet(plans, pending) == PendingSet(plans', pending')
    ensures RestoredAll(files, plans, pending, |plans|) == RestoredAll(files, plans', pending', |plans'|)
  {
    var a, b := RestoredAll(files, plans, pending, |plans|), RestoredAll(files, plans', pending', |plans'|);
    forall p ensures Get(a, p) == Get(b, p) {
      SameAtEveryPath(files, plans, pending, plans', pending', p);
    }
    SameFiles(a, b);
  }

  /** Both transactions changed this path, or the second was about to bring the original back. */
  predicate Clash(start: Files, middle: Files, end: Files, second: seq<Change>, p: string) {
    && Get(middle, p) != Get(start, p)
    && exists i :: 0 <= i < |second| && second[i].path == p
         && (Get(end, p) != Get(middle, p) || Some(second[i].candidate) == Get(start, p))
  }

  ghost predicate NoClash(start: Files, middle: Files, end: Files, second: seq<Change>) {
    forall p :: !Clash(start, middle, end, second, p)
  }

  lemma OldestFirstAt(start: Files, middle: Files, end: Files, first: seq<Change>, second: seq<Change>, p: string)
    requires Applied(start, middle, first) && Applied(middle, end, second)
    ensures Get(Restored(Restored(end, first), second), p) == Get(start, p) <==> !Clash(start, middle, end, second, p)
  {
    RestoredAt(end, first);
    RestoredAt(Restored(end, first), second);
    if HasPath(first, p) {
      var i :| 0 <= i < |first| && first[i].path == p;
      UndoneAt(start, middle, first, i);
      assert Get(Restored(end, first), p) == RestoredContent(end, first[i]);
    }
    if HasPath(second, p) {
      var j :| 0 <= j < |second| && second[j].path == p;
      UndoneAt(middle, end, second, j);
      assert Get(Restored(Restored(end, first), second), p) == RestoredContent(Restored(end, first), second[j]);
    }
  }

  /** Two stacked transactions recovered oldest first, however far the second came: the root is the
      original exactly when they do not clash anywhere. */
  lemma OldestFirstExactly(start: Files, middle: Files, end: Files, first: seq<Change>, second: seq<Change>)
    requires Applied(start, middle, first) && Applied(middle, end, second)
    ensures RestoredAll(end, [first, second], [true, true], 2) == start <==> NoClash(start, middle, end, second)
  {
    var once := Restored(end, first);
    var twice := Restored(once, second);
    assert RestoredAll(end, [first, second], [true, true], 1) == once;
    assert RestoredAll(end, [first, second], [true, true], 2) == twice;
    forall p ensures Get(twice, p) == Get(start, p) <==> !Clash(start, middle, end, second, p) {
      OldestFirstAt(start, middle, end, first, second, p);
    }
    if NoClash(start, middle, end, second) {
      forall p ensures Get(twice, p) == Get(start, p) {
        assert !Clash(start, middle, end, second, p);
      }
      SameFiles(twice, start);
    }
  }

  /** The target has content that nobody knows, and the entry says that it was installed. */
  predicate Refused(change: Change, e: Entry, files: Files) {
    e.status == Installed && Get(files, change.path) != change.previous
    && Get(files, change.path) != Some(change.candidate)
  }

  /** The second transaction left this file at the first one's candidate, where the first one had not. */
  predicate Retried(change: Change, middle: Files, end: Files) {
    && change.previous.Some? && change.previous != Some(change.candidate)
    && Get(middle, change.path) != Some(change.candidate) && Get(end, change.path) == Some(change.candidate)
  }

  /** Two stacked transactions can be taken off oldest first. */
  ghost predicate OldestFirstWorks(start: Files, middle: Files, end: Files, first: seq<Change>, second: seq<Change>,
      a: Shelf, b: Shelf)
    requires a.manifest.Some? && |a.manifest.value.changes| == |first|
    requires b.manifest.Some? && |b.manifest.value.changes| == |second|
  {
    && NoClash(start, middle, end, second)
    && (forall i :: 0 <= i < |first| && Retried(first[i], middle, end) ==>
         i in a.backups && a.backups[i] == first[i].previous.value)
    && (forall i :: 0 <= i < |first| ==> !Refused(first[i], a.manifest.value.changes[i], end))
    && (forall j :: 0 <= j < |second| ==>
         !Refused(second[j], b.manifest.value.changes[j], Restored(end, first)))
  }

  lemma FirstCanUndo(middle: Files, end: Files, first: seq<Change>, a: Shelf)
    requires Held(first, a, middle) && a.manifest.Some? && |a.manifest.value.changes| == |first|
    ensures CanUndoAll(first, a.manifest.value.changes, a.backups, end) <==>
      && (forall i :: 0 <= i < |first| && Retried(first[i], middle, end) ==>
           i in a.backups && a.backups[i] == first[i].previous.value)
      && (forall i :: 0 <= i < |first| ==> !Refused(first[i], a.manifest.value.changes[i], end))
  {
    forall i | 0 <= i < |first|
      ensures CanUndo(first[i], a.manifest.value.changes[i], i, a.backups, end) <==>
        && (Retried(first[i], middle, end) ==> i in a.backups && a.backups[i] == first[i].previous.value)
        && !Refused(first[i], a.manifest.value.changes[i], end)
    {
      assert HeldAt(first, a, middle, i);
    }
  }

  /** Without a clash, the only thing that can stop the second undo is content it does not know. */
  lemma SecondCanUndo(start: Files, middle: Files, end: Files, first: seq<Change>, second: seq<Change>, b: Shelf)
    requires Applied(start, middle, first) && Applied(middle, end, second)
    requires Held(second, b, end) && b.manifest.Some? && |b.manifest.value.changes| == |second|
    requires NoClash(start, middle, end, second)
    ensures CanUndoAll(second, b.manifest.value.changes, b.backups, Restored(end, first)) <==>
      forall j :: 0 <= j < |second| ==> !Refused(second[j], b.manifest.value.changes[j], Restored(end, first))
  {
    forall j | 0 <= j < |second|
      ensures CanUndo(second[j], b.manifest.value.changes[j], j, b.backups, Restored(end, first)) <==>
        !Refused(second[j], b.manifest.value.changes[j], Restored(end, first))
    {
      var p := second[j].path;
      assert HeldAt(second, b, end, j) && Before(middle, second[j]);
      RestoredAt(end, first);
      assert !Clash(start, middle, end, second, p);
      if HasPath(first, p) {
        var i :| 0 <= i < |first| && first[i].path == p;
        UndoneAt(start, middle, first, i);
        assert Get(Restored(end, first), p) == RestoredContent(end, first[i]);
      }
    }
  }

  lemma TwoTurns(end: Files, first: seq<Change>, second: seq<Change>, a: Shelf, b: Shelf)
    requires a.manifest.Some? && b.manifest.Some?
    ensures EachCanUndo(end, [first, second], [a, b], [true, true]) <==>
      && CanUndoAll(first, a.manifest.value.changes, a.backups, end)
      && CanUndoAll(second, b.manifest.value.changes, b.backups, Restored(end, first))
  {
    hide CanUndoAll, Restored;
    var plans, shelves, pending := [first, second], [a, b], [true, true];
    assert RestoredAll(end, plans, pending, 0) == end;
    assert RestoredAll(end, plans, pending, 1) == Restored(end, first);
    assert TurnCanUndo(end, plans, shelves, pending, 0) <==>
      CanUndoAll(first, a.manifest.value.changes, a.backups, end);
    assert TurnCanUndo(end, plans, shelves, pending, 1) <==>
      CanUndoAll(second, b.manifest.value.changes, b.backups, Restored(end, first));
  }

  /** The call ends, and with the original root, exactly then. */
  lemma OldestFirstCanEnd(start: Files, middle: Files, end: Files, first: seq<Change>, second: seq<Change>,
      a: Shelf, b: Shelf)
    requires Applied(start, middle, first) && Applied(middle, end, second)
    requires Held(first, a, middle) && a.manifest.Some? && |a.manifest.value.changes| == |first|
    requires Held(second, b, end) && b.manifest.Some? && |b.manifest.value.changes| == |second|
    ensures OldestFirstWorks(start, middle, end, first, second, a, b) <==>
      && EachCanUndo(end, [first, second], [a, b], [true, true])
      && RestoredAll(end, [first, second], [true, true], 2) == start
  {
    hide EachCanUndo, CanUndoAll, RestoredAll, Restored, Held, Applied, Clash, Retried, Refused;
    TwoTurns(end, first, second, a, b);
    OldestFirstExactly(start, middle, end, first, second);
    FirstCanUndo(middle, end, first, a);
    if NoClash(start, middle, end, second) {
      SecondCanUndo(start, middle, end, first, second, b);
    }
  }

  /** When both came to their end, that is: no path is really changed by both. */
  lemma ClashOfCompleteOnes(start: Files, middle: Files, end: Files, first: seq<Change>, second: seq<Change>)
    requires Applied(start, middle, first) && Applied(middle, end, second)
    requires AllInstalled(middle, first) && AllInstalled(end, second)
    ensures !NoClash(start, middle, end, second) <==>
      exists i, j :: 0 <= i < |first| && 0 <= j < |second| && ChangesTheSame(first[i], second[j])
  {
    if p :| Clash(start, middle, end, second, p) {
      var i :| 0 <= i < |first| && first[i].path == p;
      var j :| 0 <= j < |second| && second[j].path == p;
      assert Before(start, first[i]) && Before(middle, second[j]);
      assert ChangesTheSame(first[i], second[j]);
    }
    if i, j :| 0 <= i < |first| && 0 <= j < |second| && ChangesTheSame(first[i], second[j]) {
      assert Before(start, first[i]) && Before(middle, second[j]);
      assert Clash(start, middle, end, second, first[i].path);
    }
  }

  predicate ChangesTheSame(a: Change, b: Change) {
    a.path == b.path && a.previous != Some(a.candidate) && b.previous != Some(b.candidate)
  }
}
