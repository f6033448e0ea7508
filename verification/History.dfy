/** What the history of a root implies: which content the engine can overwrite, and how journals end. */
module History {
  import opened Basics
  import opened JournalModel

  /** Content the plan knows nothing about: neither what was there before nor the candidate. */
  predicate Unknown(change: Change, content: Option<Content>) {
    content != change.previous && content != Some(change.candidate)
  }

  /** The last foreign edit of a path from position `since` on, if there is one. */
  function LastEdit(log: seq<Write>, since: nat, path: string): Option<Option<Content>> {
    if |log| <= since then None
    else
      var last := log[|log| - 1];
      if last.Edited? && path in last.edits then Some(last.edits[path])
      else LastEdit(log[..|log| - 1], since, path)
  }

  lemma {:induction false} WindowContent(start: Files, log: seq<Write>, since: nat, path: string)
    requires since <= |log| && OnlyEdits(log, since)
    ensures Get(Replay(start, log), path) ==
      match LastEdit(log, since, path) { case None => Get(Replay(start, log[..since]), path) case Some(c) => c }
  {
    if |log| == since {
      assert log[..since] == log;
    } else {
      var init := log[..|log| - 1];
      assert init[..since] == log[..since];
      WindowContent(start, init, since, path);
    }
  }

  lemma {:induction false} LawfulAt(planned: set<Change>, start: Files, log: seq<Write>, k: nat)
    requires Lawful(planned, start, log) && k < |log|
    ensures LawfulWrite(planned, start, log[..k], log[k])
  {
    if k < |log| - 1 {
      LawfulAt(planned, start, log[..|log| - 1], k);
      assert log[..|log| - 1][..k] == log[..k];
    }
  }

  /** An installed candidate never replaces anything but the planned previous content. */
  lemma InstallNeverOverwrites(planned: set<Change>, start: Files, log: seq<Write>, k: nat)
    requires Lawful(planned, start, log) && k < |log| && log[k].Install?
    ensures Get(Replay(start, log[..k]), log[k].change.path) == log[k].change.previous
  {
    LawfulAt(planned, start, log, k);
  }

  /** A restore overwrites unknown content exactly when another program put that content there
      between the moment the file was examined and the rename. */
  lemma RestoreOverwritesExactly(planned: set<Change>, start: Files, log: seq<Write>, k: nat)
    requires Lawful(planned, start, log) && k < |log| && log[k].Restore?
    ensures
      var change, edit := log[k].change, LastEdit(log[..k], log[k].since, log[k].change.path);
      Unknown(change, Get(Replay(start, log[..k]), change.path)) <==> edit.Some? && Unknown(change, edit.value)
  {
    LawfulAt(planned, start, log, k);
    var change, since := log[k].change, log[k].since;
    WindowContent(start, log[..k], since, change.path);
    assert log[..k][..since] == log[..since];
  }

  /** Whatever is called in whatever order, a journal ends at most once, never leaves that state, and
      is committed only straight after it was awaiting verification. */
  lemma {:induction false} OneOutcome(history: seq<TxState>, i: nat)
    requires LegalHistory(history) && i < |history|
    ensures Terminal(history[i]) ==> i == |history| - 1
    ensures history[i] == Committed ==> i > 0 && history[i - 1] == AwaitingVerification
  {
    var init := history[..|history| - 1];
    if i < |init| {
      OneOutcome(init, i);
      if i == |init| - 1 {
        assert MayFollow(init, history[|history| - 1]);
      }
    }
  }
}
