/** The vocabulary of activation sessions, and the law their journal keeps. */
module ActivationModel {
  import opened Basics

  datatype State =
    | Prepared | Activating | Active | ActivationFailed | Recovering | Recovered | RecoveryRequired
    | CommitPrepared | Committing | Committed | CommitFailed
    | RollbackPrepared | RollingBack | RolledBack | RollbackRequired

  /** What a session is about, fixed when it is created. */
  datatype Ticket = Ticket(target: string, uid: nat, fingerprint: string, candidate: string, previous: string)

  datatype Session = Session(state: State, ticket: Ticket)

  type Sessions = map<string, Session>

  /** The system closures that the runtime link and the boot profile lead to. */
  datatype Links = Links(runtime: Option<string>, profile: Option<string>)

  function Both(closure: string): Links {
    Links(Some(closure), Some(closure))
  }

  /** What running an external command comes to: it may leave the links anywhere, also when it raises. */
  datatype Run = Exited(code: int, after: Links) | Failed(after: Links)

  /** A profile change, or an activation that is either a test or permanent. */
  datatype Command = SetProfile | TestSwitch | PermanentSwitch

  /** One journal write, with the links as they were then, or one command issued for a session, which exits
      with 0 or does not. */
  datatype Record =
    | Wrote(id: string, session: Session, links: Links)
    | Issued(id: string, command: Command, closure: string, ok: bool)

  predicate Finished(s: State) {
    s in {Recovered, Committed, RolledBack}
  }

  predicate Recoverable(s: State) {
    s in {Prepared, Activating, Active, ActivationFailed, RecoveryRequired, Recovering,
          CommitPrepared, Committing, CommitFailed}
  }

  predicate InTestPhase(s: State) {
    s in {Prepared, Activating, Active, ActivationFailed, Recovering, RecoveryRequired, CommitPrepared, Committing}
  }

  predicate InRollbackPhase(s: State) {
    s in {RollbackPrepared, RollingBack, RolledBack, RollbackRequired}
  }

  predicate AllFinished(sessions: Sessions) {
    forall id <- sessions :: Finished(sessions[id].state)
  }

  /** The moves a session may make, and what the links must have looked like at that moment. */
  predicate MayMove(t: Ticket, from: State, to: State, links: Links) {
    match to
    case Prepared => false
    case CommitFailed => false
    case Activating => from == Prepared
    case ActivationFailed => from == Activating
    case Active =>
      || (from == Activating && links.runtime == Some(t.candidate))
      || from == CommitPrepared
    case Recovering => Recoverable(from)
    case Recovered =>
      || from == Prepared
      || (from == Recovering && links.runtime == Some(t.previous) && links.profile in {None, Some(t.previous)})
      || (from == Committing && links == Both(t.previous))
    case RecoveryRequired => from in {Recovering, CommitPrepared, Committing}
    case CommitPrepared => from == Active && links == Links(Some(t.candidate), Some(t.previous))
    case Committing => from == CommitPrepared
    case Committed =>
      || (from in {Committing, RollingBack} && links == Both(t.candidate))
      || from == RollbackPrepared
    case RollbackPrepared => from == State.Committed && links == Both(t.candidate)
    case RollingBack => from == RollbackPrepared
    case RolledBack => from == RollingBack && links == Both(t.previous)
    case RollbackRequired => from in {RollbackPrepared, RollingBack}
  }

  /** The commands a session may issue in a state. */
  predicate MayIssue(t: Ticket, state: State, command: Command, closure: string) {
    match command
    case TestSwitch =>
      || (state == Activating && closure == t.candidate)
      || (state == Recovering && closure == t.previous)
    case SetProfile =>
      || (state in {Committing, RollingBack} && closure in {t.candidate, t.previous})
      || (state == Recovering && closure == t.previous)
    case PermanentSwitch =>
      || (state in {Committing, RollingBack} && closure in {t.candidate, t.previous})
      || (state == Recovering && closure == t.previous)
  }

  /** What the law says of journal writes. */
  predicate MayWrite(sessions: Sessions, r: Record) {
    r.Wrote? ==>
      if r.id in sessions then
        && r.session.ticket == sessions[r.id].ticket
        && MayMove(r.session.ticket, sessions[r.id].state, r.session.state, r.links)
      else
        && r.session.state == Prepared && AllFinished(sessions)
        && r.links.runtime.Some? && r.links.profile == Some(r.session.ticket.previous)
  }

  predicate Allowed(sessions: Sessions, r: Record) {
    && MayWrite(sessions, r)
    && (r.Issued? ==>
         r.id in sessions && MayIssue(sessions[r.id].ticket, sessions[r.id].state, r.command, r.closure))
  }

  /** What a command comes right after. A switch is permanent exactly right after the profile was set to its
      closure; a test right after the journal said so, and a recovery only tests where the profile has not
      moved. The profile is set right after the journal said so, by a recovery only where it has moved; or, to
      compensate, after another command of the session, which if it was to set the profile had failed. */
  predicate InOrder(log: seq<Record>, r: Record) {
    r.Issued? ==>
      && log != []
      && var last := log[|log| - 1];
         && last.id == r.id
         && match r.command
            case PermanentSwitch => last == Issued(r.id, SetProfile, r.closure, true)
            case TestSwitch => last.Wrote? && (last.session.state == Recovering ==> !ProfileMoved(last))
            case SetProfile =>
              if last.Wrote? then last.session.state == Recovering ==> ProfileMoved(last)
              else last.command == PermanentSwitch || (last.command == SetProfile && !last.ok)
  }

  /** At this write the boot profile was neither absent nor the session's previous closure. */
  predicate ProfileMoved(r: Record)
    requires r.Wrote?
  {
    r.links.profile !in {None, Some(r.session.ticket.previous)}
  }

  /** What one more record does to the journal. */
  function After(sessions: Sessions, r: Record): Sessions {
    match r
    case Wrote(id, s, _) => sessions[id := s]
    case Issued(_, _, _, _) => sessions
  }

  /** The journal that a history of records leaves behind. */
  function Replay(log: seq<Record>): Sessions {
    if log == [] then map[] else After(Replay(log[..|log| - 1]), log[|log| - 1])
  }

  ghost predicate Legal(log: seq<Record>) {
    log != [] ==>
      var before := log[..|log| - 1];
      Legal(before) && Allowed(Replay(before), log[|log| - 1]) && InOrder(before, log[|log| - 1])
  }

  lemma LegalNext(log: seq<Record>, r: Record)
    requires Legal(log) && Allowed(Replay(log), r) && InOrder(log, r)
    ensures Legal(log + [r]) && Replay(log + [r]) == After(Replay(log), r)
  {
    assert (log + [r])[..|log|] == log;
  }
}
