/** What the journal law implies over every run, and runs of arbitrary calls. */
module ActivationHistory {
  import opened Basics
  import opened ActivationModel
  import opened Activation

  lemma {:induction false} LegalPrefix(log: seq<Record>, k: nat)
    requires Legal(log) && k <= |log|
    ensures Legal(log[..k])
    ensures k < |log| ==> Allowed(Replay(log[..k]), log[k]) && InOrder(log[..k], log[k])
    decreases |log|
  {
    if k == |log| {
      assert log[..k] == log;
    } else if k < |log| - 1 {
      var prefix := log[..|log| - 1];
      LegalPrefix(prefix, k);
      assert prefix[..k] == log[..k];
    }
  }

  lemma ReplayOne(log: seq<Record>, k: nat)
    requires k < |log|
    ensures Replay(log[..k + 1]) == After(Replay(log[..k]), log[k])
  {
    var prefix := log[..k + 1];
    assert prefix[..|prefix| - 1] == log[..k] && prefix[|prefix| - 1] == log[k];
  }

  /** The law of the writes alone. */
  ghost predicate Written(log: seq<Record>) {
    forall k :: 0 <= k < |log| ==> MayWrite(Replay(log[..k]), log[k])
  }

  lemma LegalIsWritten(log: seq<Record>)
    requires Legal(log)
    ensures Written(log)
  {
    forall k | 0 <= k < |log| ensures MayWrite(Replay(log[..k]), log[k]) {
      LegalPrefix(log, k);
    }
  }

  /** The states a session never leaves. */
  predicate Final(s: State) {
    s in {State.Recovered, RolledBack, RollbackRequired}
  }

  predicate Advances(was: Session, now: Session) {
    && now.ticket == was.ticket
    && (InTestPhase(now.state) ==> InTestPhase(was.state))
    && (Final(was.state) ==> now == was)
  }

  /** Sessions are created when all others are finished, and only move on. */
  predicate MovesOn(sessions: Sessions, r: Record) {
    r.Wrote? ==>
      if r.id in sessions then Advances(sessions[r.id], r.session)
      else r.session.state == Prepared && AllFinished(sessions)
  }

  ghost predicate Tidy(log: seq<Record>) {
    forall k :: 0 <= k < |log| ==> MovesOn(Replay(log[..k]), log[k])
  }

  lemma TidyAt(log: seq<Record>, k: nat)
    requires Tidy(log) && k < |log|
    ensures MovesOn(Replay(log[..k]), log[k])
  {
  }

  /** The state `commit-failed` is never written. */
  lemma {:induction false} NeverCommitFailed(log: seq<Record>, n: nat, id: string)
    requires Written(log) && n <= |log| && id in Replay(log[..n])
    ensures Replay(log[..n])[id].state != CommitFailed
    decreases n
  {
    if n > 0 {
      ReplayOne(log, n - 1);
      if id in Replay(log[..n - 1]) {
        NeverCommitFailed(log, n - 1, id);
      }
    }
  }

  lemma WrittenIsTidy(log: seq<Record>)
    requires Written(log)
    ensures Tidy(log)
  {
    forall k | 0 <= k < |log| ensures MovesOn(Replay(log[..k]), log[k]) {
      if log[k].Wrote? && log[k].id in Replay(log[..k]) {
        NeverCommitFailed(log, k, log[k].id);
      }
    }
  }

  lemma NoneBeside(sessions: Sessions, r: Record, unfinished: string)
    requires MovesOn(sessions, r) && unfinished in sessions && !Finished(sessions[unfinished].state)
    ensures After(sessions, r).Keys == sessions.Keys
  {
    assert !AllFinished(sessions);
  }

  /** At most one session is in the test phase. */
  ghost predicate OneInTest(sessions: Sessions) {
    forall a, b :: a in sessions && b in sessions && InTestPhase(sessions[a].state) && InTestPhase(sessions[b].state)
      ==> a == b
  }

  /** Nobody enters the test phase while another is there. */
  predicate EntersAlone(sessions: Sessions, r: Record) {
    r.Wrote? && InTestPhase(r.session.state) && !(r.id in sessions && InTestPhase(sessions[r.id].state)) ==>
      forall id <- sessions :: id != r.id ==> !InTestPhase(sessions[id].state)
  }

  lemma OneInTestAfter(sessions: Sessions, r: Record)
    requires OneInTest(sessions)
    ensures OneInTest(After(sessions, r)) <==> EntersAlone(sessions, r)
  {
    if r.Wrote? {
      var after := After(sessions, r);
      assert forall id <- sessions :: id != r.id ==> after[id] == sessions[id];
      assert after[r.id] == r.session;
    }
  }

  /** There is never more than one session in the test phase exactly when nobody enters it beside another. */
  lemma {:induction false} OneTestExactly(log: seq<Record>, n: nat)
    requires n <= |log|
    ensures (forall k :: 0 <= k <= n ==> OneInTest(Replay(log[..k]))) <==>
      (forall k :: 0 <= k < n ==> EntersAlone(Replay(log[..k]), log[k]))
    decreases n
  {
    if n > 0 {
      OneTestExactly(log, n - 1);
      ReplayOne(log, n - 1);
      if OneInTest(Replay(log[..n - 1])) {
        OneInTestAfter(Replay(log[..n - 1]), log[n - 1]);
      }
    }
  }

  /** At most one session is ever in the test phase. */
  lemma OneTest(log: seq<Record>, n: nat)
    requires Tidy(log) && n <= |log|
    ensures OneInTest(Replay(log[..n]))
  {
    OneTestExactly(log, |log|);
  }

  /** From one moment to a later one: no session disappears, none changes what it is about, none comes
      back to the test phase, and the final states stay. */
  lemma {:induction false} Onward(log: seq<Record>, i: nat, j: nat, id: string)
    requires Tidy(log) && i <= j <= |log| && id in Replay(log[..i])
    ensures id in Replay(log[..j])
    ensures Advances(Replay(log[..i])[id], Replay(log[..j])[id])
    decreases j
  {
    if i < j {
      Onward(log, i, j - 1, id);
      ReplayOne(log, j - 1);
      assert MovesOn(Replay(log[..j - 1]), log[j - 1]);
    }
  }

  /** A rollback that needs attention shuts out every later test: there is no call that ends it, and
      no session can be created beside it. */
  lemma {:induction false} RollbackRequiredShutsOut(log: seq<Record>, i: nat, j: nat, id: string)
    requires Tidy(log) && i <= j <= |log|
    requires id in Replay(log[..i]) && Replay(log[..i])[id].state == RollbackRequired
    ensures Replay(log[..j]).Keys == Replay(log[..i]).Keys
    decreases j
  {
    hide Tidy, Replay;
    if i < j {
      RollbackRequiredShutsOut(log, i, j - 1, id);
      Onward(log, i, j - 1, id);
      ReplayOne(log, j - 1);
      TidyAt(log, j - 1);
      NoneBeside(Replay(log[..j - 1]), log[j - 1], id);
    }
  }

  /** The session passed the commit check. */
  predicate PastCommitCheck(s: State) {
    s in {CommitPrepared, Committing, State.Committed} || InRollbackPhase(s)
  }

  /** At this place in the history the session was found active, the machine running its candidate. */
  predicate FoundActive(log: seq<Record>, k: nat, id: string, t: Ticket) {
    && k < |log| && log[k].Wrote? && log[k].id == id && log[k].session == Session(Active, t)
    && log[k].links.runtime == Some(t.candidate)
  }

  /** At this place the commit check passed: candidate running, previous system still the boot profile. */
  predicate PassedCheck(log: seq<Record>, k: nat, id: string, t: Ticket) {
    && k < |log| && log[k].Wrote? && log[k].id == id && log[k].session == Session(CommitPrepared, t)
    && log[k].links == Links(Some(t.candidate), Some(t.previous))
  }

  lemma {:induction false} Tested(log: seq<Record>, n: nat, id: string) returns (tested: nat)
    requires Written(log) && n <= |log| && id in Replay(log[..n])
    requires Replay(log[..n])[id].state == Active || PastCommitCheck(Replay(log[..n])[id].state)
    ensures tested < n && FoundActive(log, tested, id, Replay(log[..n])[id].ticket)
    decreases n
  {
    var before, r := Replay(log[..n - 1]), log[n - 1];
    ReplayOne(log, n - 1);
    assert MayWrite(before, r);
    if r.Wrote? && r.id == id && r.session.state == Active && before[id].state == Activating {
      tested := n - 1;
    } else {
      tested := Tested(log, n - 1, id);
    }
  }

  /** A session in a commit or rollback state was active with its candidate running, and passed the
      commit check after that, under the same ticket. */
  lemma {:induction false} Provenance(log: seq<Record>, n: nat, id: string) returns (tested: nat, checked: nat)
    requires Written(log) && n <= |log| && id in Replay(log[..n]) && PastCommitCheck(Replay(log[..n])[id].state)
    ensures tested < checked < n
    ensures FoundActive(log, tested, id, Replay(log[..n])[id].ticket)
    ensures PassedCheck(log, checked, id, Replay(log[..n])[id].ticket)
    decreases n
  {
    var r := log[n - 1];
    ReplayOne(log, n - 1);
    assert MayWrite(Replay(log[..n - 1]), r);
    if r.Wrote? && r.id == id && r.session.state == CommitPrepared {
      tested := Tested(log, n - 1, id);
      checked := n - 1;
    } else {
      tested, checked := Provenance(log, n - 1, id);
    }
  }

  /** Every command names one of the two closures of its session; one that makes the candidate permanent
      comes after the test and the check. */
  lemma CommandsHaveProvenance(log: seq<Record>, k: nat) returns (tested: nat, checked: nat)
    requires Legal(log) && k < |log| && log[k].Issued?
    ensures log[k].id in Replay(log[..k])
    ensures var t := Replay(log[..k])[log[k].id].ticket;
      && log[k].closure in {t.candidate, t.previous}
      && (log[k].command != TestSwitch && log[k].closure != t.previous ==>
        tested < checked < k && FoundActive(log, tested, log[k].id, t) && PassedCheck(log, checked, log[k].id, t))
  {
    LegalPrefix(log, k);
    LegalIsWritten(log);
    tested, checked := 0, 0;
    var t := Replay(log[..k])[log[k].id].ticket;
    if log[k].command != TestSwitch && log[k].closure != t.previous {
      tested, checked := Provenance(log, k, log[k].id);
    }
  }

  /** Every command comes where the source runs it. A permanent switch directly follows a profile change to its
      closure that succeeded. A test follows directly on the journal entry that announces it, and a recovery only
      tests if the profile was then absent or the previous closure. A profile change follows on such an entry,
      in a recovery only if the profile had moved; or on another command of its session, which had not reached
      its closure if it was a profile change. */
  lemma CommandsInOrder(log: seq<Record>, k: nat)
    requires Legal(log) && k < |log| && log[k].Issued?
    ensures k > 0 && log[k - 1].id == log[k].id
    ensures log[k].command == PermanentSwitch ==> log[k - 1] == Issued(log[k].id, SetProfile, log[k].closure, true)
    ensures log[k].command == TestSwitch ==>
      && log[k - 1].Wrote? && log[k - 1].session.state in {Activating, Recovering}
      && (log[k - 1].session.state == Recovering ==>
           log[k - 1].links.profile in {None, Some(log[k - 1].session.ticket.previous)})
    ensures log[k].command == SetProfile && log[k - 1].Wrote? ==>
      && log[k - 1].session.state in {Committing, RollingBack, Recovering}
      && (log[k - 1].session.state == Recovering ==>
           log[k - 1].links.profile !in {None, Some(log[k - 1].session.ticket.previous)})
    ensures log[k].command == SetProfile && log[k - 1].Issued? ==>
      log[k - 1].command == PermanentSwitch || (log[k - 1].command == SetProfile && !log[k - 1].ok)
  {
    LegalPrefix(log, k);
    ReplayOne(log, k - 1);
  }

  /** The session was recorded so at this place, with both links at this closure. */
  predicate RecordedAt(log: seq<Record>, k: nat, id: string, s: Session, closure: string) {
    k < |log| && log[k].Wrote? && log[k].id == id && log[k].session == s && log[k].links == Both(closure)
  }

  /** A session that is committed, or whose rollback is prepared, was recorded as committed while both links
      were its candidate. */
  lemma {:induction false} CommitIsHonest(log: seq<Record>, n: nat, id: string) returns (k: nat)
    requires Written(log) && n <= |log| && id in Replay(log[..n])
    requires Replay(log[..n])[id].state in {State.Committed, RollbackPrepared}
    ensures var t := Replay(log[..n])[id].ticket;
      k < n && RecordedAt(log, k, id, Session(State.Committed, t), t.candidate)
    decreases n
  {
    var r := log[n - 1];
    ReplayOne(log, n - 1);
    assert MayWrite(Replay(log[..n - 1]), r);
    if r.Wrote? && r.id == id && r.session.state == State.Committed && r.links == Both(r.session.ticket.candidate) {
      k := n - 1;
    } else {
      k := CommitIsHonest(log, n - 1, id);
    }
  }

  /** A session that is rolled back was recorded so while both links were the previous closure. */
  lemma {:induction false} RollbackIsHonest(log: seq<Record>, n: nat, id: string) returns (k: nat)
    requires Written(log) && n <= |log| && id in Replay(log[..n]) && Replay(log[..n])[id].state == RolledBack
    ensures k < n && RecordedAt(log, k, id, Replay(log[..n])[id], Replay(log[..n])[id].ticket.previous)
    decreases n
  {
    ReplayOne(log, n - 1);
    assert MayWrite(Replay(log[..n - 1]), log[n - 1]);
    if log[n - 1].Wrote? && log[n - 1].id == id {
      k := n - 1;
    } else {
      k := RollbackIsHonest(log, n - 1, id);
    }
  }

  /** A session that is recovered was recorded so while the runtime was the previous closure and the profile
      was that or absent; or no test of it was ever started. */
  lemma {:induction false} RecoveryIsHonest(log: seq<Record>, n: nat, id: string) returns (k: nat)
    requires Written(log) && n <= |log| && id in Replay(log[..n]) && Replay(log[..n])[id].state == State.Recovered
    ensures var s := Replay(log[..n])[id];
      && k < n && log[k].Wrote? && log[k].id == id && log[k].session == s
      && var back := Some(s.ticket.previous);
         (log[k].links.runtime == back && log[k].links.profile in {None, back}) || NeverTested(log, k, id)
    decreases n
  {
    ReplayOne(log, n - 1);
    assert MayWrite(Replay(log[..n - 1]), log[n - 1]);
    if log[n - 1].Wrote? && log[n - 1].id == id {
      k := n - 1;
      if Replay(log[..k])[id].state == Prepared {
        OnlyPrepared(log, k, id);
      }
    } else {
      k := RecoveryIsHonest(log, n - 1, id);
    }
  }

  /** Before this place the session was only ever recorded as prepared. */
  ghost predicate NeverTested(log: seq<Record>, k: nat, id: string)
    requires k <= |log|
  {
    forall j :: 0 <= j < k && log[j].Wrote? && log[j].id == id ==> log[j].session.state == Prepared
  }

  lemma {:induction false} OnlyPrepared(log: seq<Record>, n: nat, id: string)
    requires Written(log) && n <= |log|
    requires id in Replay(log[..n]) ==> Replay(log[..n])[id].state == Prepared
    ensures NeverTested(log, n, id)
    decreases n
  {
    if n > 0 {
      ReplayOne(log, n - 1);
      assert MayWrite(Replay(log[..n - 1]), log[n - 1]);
      OnlyPrepared(log, n - 1, id);
    }
  }

  /** Everything that can be asked of a machine, and what can happen to it from outside. */
  datatype Call =
    | Test(id: string, target: string, uid: nat, fingerprint: string, candidate: string, test: TestWorld)
    | TimedRecovery(id: string, recovery: RecoveryWorld)
    | UserRecovery(id: string, target: string, uid: nat, tools: bool, unit: Option<RecoveryWorld>, code: Option<int>)
    | CommitIt(id: string, target: string, uid: nat, fingerprint: string, candidate: string, verified: bool,
        schedule: Run, meanwhile: Option<TransitionWorld>)
    | RollItBack(id: string, target: string, uid: nat, schedule: Run, meanwhile: Option<TransitionWorld>)
    | Unit(id: string, mode: Mode, transition: TransitionWorld)
    | LinksMoved(to: Links)

  /** What one call does. */
  function CallTrace(left: nat, sessions: Sessions, links: Links, call: Call): Trace {
    match call
    case Test(id, target, uid, fingerprint, candidate, w) =>
      TestCall(left, sessions, links, id, target, uid, fingerprint, candidate, w)
    case TimedRecovery(id, w) => RecoverCall(left, sessions, links, id, w)
    case UserRecovery(id, target, uid, tools, unit, _) => UserCall(left, sessions, links, id, target, uid, tools, unit)
    case CommitIt(id, target, uid, fingerprint, candidate, verified, schedule, meanwhile) =>
      CommitCall(left, sessions, links, id, target, uid, fingerprint, candidate, verified, schedule, meanwhile)
    case RollItBack(id, target, uid, schedule, meanwhile) =>
      RollbackCall(left, sessions, links, id, target, uid, schedule, meanwhile)
    case Unit(id, mode, w) => UnitCall(left, sessions, links, id, mode, w)
    case LinksMoved(to) => Trace([], to)
  }

  /** What the calls do one after the other. */
  function RunTrace(start: Trace, calls: seq<(nat, Call)>): Trace {
    if calls == [] then start
    else
      var before := RunTrace(start, calls[..|calls| - 1]);
      var (left, call) := calls[|calls| - 1];
      var done := CallTrace(left, Replay(before.records), before.links, call);
      Trace(before.records + done.records, done.links)
  }

  lemma RunNext(start: Trace, calls: seq<(nat, Call)>, k: nat)
    requires k < |calls|
    ensures
      var before := RunTrace(start, calls[..k]);
      var done := CallTrace(calls[k].0, Replay(before.records), before.links, calls[k].1);
      RunTrace(start, calls[..k + 1]) == Trace(before.records + done.records, done.links)
  {
    assert calls[..k + 1][..k] == calls[..k];
  }

  method DoCall(m: Machine, left: nat, call: Call)
    requires m.Valid()
    modifies m
    ensures m.Valid() && m.Did(CallTrace(left, Replay(old(m.log)), old(m.links), call))
  {
    hide TestCall, RecoverCall, UserCall, CommitCall, RollbackCall, UnitCall, Legal, Replay;
    m.Start(left);
    var r;
    match call {
      case Test(id, target, uid, fingerprint, candidate, w) =>
        r := m.TestActivation(id, target, uid, fingerprint, candidate, w);
      case TimedRecovery(id, w) =>
        r := m.Recover(id, w);
      case UserRecovery(id, target, uid, tools, unit, code) =>
        r := m.RecoverTest(id, target, uid, tools, unit, code);
      case CommitIt(id, target, uid, fingerprint, candidate, verified, schedule, meanwhile) =>
        r := m.CommitTested(id, target, uid, fingerprint, candidate, verified, schedule, meanwhile);
      case RollItBack(id, target, uid, schedule, meanwhile) =>
        r := m.RollbackCommitted(id, target, uid, schedule, meanwhile);
      case Unit(id, mode, w) =>
        r := m.Transition(id, mode, w);
      case LinksMoved(to) =>
        m.Disturb(to);
    }
  }

  /** Any calls in any order, each dying after any number of journal writes: the history is what they do one
      after the other, it stays legal, and the journal is what it says. */
  method RunCalls(m: Machine, calls: seq<(nat, Call)>)
    requires m.Valid()
    modifies m
    ensures m.Valid() && old(m.log) <= m.log
    ensures Trace(m.log, m.links) == RunTrace(old(Trace(m.log, m.links)), calls)
    ensures Legal(m.log) && m.sessions == Replay(m.log)
  {
    assert calls[..|calls|] == calls;
    for k := 0 to |calls|
      invariant m.Valid() && old(m.log) <= m.log
      invariant Trace(m.log, m.links) == RunTrace(old(Trace(m.log, m.links)), calls[..k])
    {
      hide CallTrace, RunTrace, Legal, Replay;
      RunNext(old(Trace(m.log, m.links)), calls, k);
      DoCall(m, calls[k].0, calls[k].1);
    }
  }
}
