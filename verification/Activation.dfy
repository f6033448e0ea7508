/** Testing, recovering, committing and rolling back one system closure. */
module Activation {
  import opened Basics
  import opened ActivationModel

  datatype Result = Accepted | Refused

  datatype Mode = Commit | Rollback

  /** The surroundings of one test. */
  datatype TestWorld = TestWorld(verified: bool, previousUsable: bool, tools: bool, schedule: Run, activation: Run)

  /** The surroundings of one recovery. */
  datatype RecoveryWorld = RecoveryWorld(usable: bool, nixEnv: bool, setProfile: Run, switch: Run)

  /** The surroundings of one transition, with its compensation. */
  datatype TransitionWorld = TransitionWorld(
    usable: bool, tools: bool, stopTimer: Run,
    setProfile: Run, switch: Run, restoreProfile: Run, restoreSwitch: Run)

  predicate Succeeded(run: Run) {
    run.Exited? && run.code == 0
  }

  function Destination(mode: Mode, t: Ticket): string {
    if mode == Commit then t.candidate else t.previous
  }

  function Compensation(mode: Mode, t: Ticket): string {
    if mode == Commit then t.previous else t.candidate
  }

  function Expected(mode: Mode): State {
    if mode == Commit then CommitPrepared else RollbackPrepared
  }

  function Running(mode: Mode): State {
    if mode == Commit then Committing else RollingBack
  }

  function Success(mode: Mode): State {
    if mode == Commit then State.Committed else RolledBack
  }

  function Compensated(mode: Mode): State {
    if mode == Commit then State.Recovered else State.Committed
  }

  function Stuck(mode: Mode): State {
    if mode == Commit then RecoveryRequired else RollbackRequired
  }

  function ExpectedLinks(mode: Mode, t: Ticket): Links {
    Links(Some(t.candidate), Some(Compensation(mode, t)))
  }

  /** Nothing stops the transition before it touches the profile. */
  predicate Clear(mode: Mode, t: Ticket, links: Links, w: TransitionWorld) {
    w.usable && links == ExpectedLinks(mode, t) && w.tools && (mode == Commit ==> Succeeded(w.stopTimer))
  }

  /** A profile change and a switch that both succeed and leave both links at the closure. */
  predicate Reaches(setProfile: Run, switch: Run, closure: string) {
    Succeeded(setProfile) && Succeeded(switch) && switch.after == Both(closure)
  }

  /** The state that a transition which is not cut short ends in. */
  function TransitionEnd(mode: Mode, t: Ticket, links: Links, w: TransitionWorld): State {
    if !Clear(mode, t, links, w) then Stuck(mode)
    else if Reaches(w.setProfile, w.switch, Destination(mode, t)) then Success(mode)
    else if Reaches(w.restoreProfile, w.restoreSwitch, Compensation(mode, t)) then Compensated(mode)
    else Stuck(mode)
  }

  /** The state that a recovery which is not cut short ends in. */
  function RecoveryEnd(t: Ticket, links: Links, w: RecoveryWorld): State {
    if links.profile in {None, Some(t.previous)} || (w.nixEnv && Succeeded(w.setProfile)) then
      if && Succeeded(w.switch) && w.switch.after.runtime == Some(t.previous)
         && w.switch.after.profile in {None, Some(t.previous)} then State.Recovered else RecoveryRequired
    else RecoveryRequired
  }

  /** The state that a test which gets past its checks, and is not cut short, ends in. */
  function TestEnd(candidate: string, w: TestWorld): State {
    if w.schedule.Failed? then Prepared
    else if w.schedule.code != 0 then State.Recovered
    else if Succeeded(w.activation) && w.activation.after.runtime == Some(candidate) then Active
    else ActivationFailed
  }

  /** What a call adds to the history, and where it leaves the links. */
  datatype Trace = Trace(records: seq<Record>, links: Links)

  /** A journal write, if the call lives that long. */
  function Saved(left: nat, id: string, t: Ticket, s: State, links: Links): seq<Record> {
    if left > 0 then [Wrote(id, Session(s, t), links)] else []
  }

  /** A profile change, and a permanent switch only if that succeeded. */
  function PairTrace(id: string, closure: string, setProfile: Run, switch: Run): Trace {
    if Succeeded(setProfile) then
      Trace([Issued(id, SetProfile, closure, true), Issued(id, PermanentSwitch, closure, Succeeded(switch))],
        switch.after)
    else Trace([Issued(id, SetProfile, closure, false)], setProfile.after)
  }

  /** The destination, the compensation only if that was not reached, and the end. */
  function CarryTrace(left: nat, id: string, mode: Mode, t: Ticket, w: TransitionWorld): Trace {
    var there := PairTrace(id, Destination(mode, t), w.setProfile, w.switch);
    var back := PairTrace(id, Compensation(mode, t), w.restoreProfile, w.restoreSwitch);
    if Reaches(w.setProfile, w.switch, Destination(mode, t)) then
      Trace(there.records + Saved(left, id, t, Success(mode), there.links), there.links)
    else
      var undone := Reaches(w.restoreProfile, w.restoreSwitch, Compensation(mode, t));
      var end := if undone then Compensated(mode) else Stuck(mode);
      Trace(there.records + back.records + Saved(left, id, t, end, back.links), back.links)
  }

  /** The links once the recovery timer of a commit was stopped, or nothing came to that. */
  function AfterTimer(mode: Mode, t: Ticket, links: Links, w: TransitionWorld): Links {
    if mode == Commit && w.usable && links == ExpectedLinks(mode, t) && w.tools then w.stopTimer.after else links
  }

  function TransitionTrace(left: nat, id: string, mode: Mode, t: Ticket, links: Links, w: TransitionWorld): Trace {
    var now := AfterTimer(mode, t, links, w);
    if !Clear(mode, t, links, w) then Trace(Saved(left, id, t, Stuck(mode), now), now)
    else if left == 0 then Trace([], now)
    else
      var carried := CarryTrace(left - 1, id, mode, t, w);
      Trace([Wrote(id, Session(Running(mode), t), now)] + carried.records, carried.links)
  }

  /** A recovery sets the profile exactly where it has moved, and makes the switch permanent exactly then. */
  function BackTrace(left: nat, id: string, t: Ticket, links: Links, w: RecoveryWorld): Trace {
    if links.profile in {None, Some(t.previous)} then
      Trace([Issued(id, TestSwitch, t.previous, Succeeded(w.switch))]
        + Saved(left, id, t, RecoveryEnd(t, links, w), w.switch.after), w.switch.after)
    else if !w.nixEnv then Trace(Saved(left, id, t, RecoveryRequired, links), links)
    else
      var pair := PairTrace(id, t.previous, w.setProfile, w.switch);
      Trace(pair.records + Saved(left, id, t, RecoveryEnd(t, links, w), pair.links), pair.links)
  }

  function RecoverTrace(left: nat, id: string, t: Ticket, links: Links, w: RecoveryWorld): Trace {
    if left == 0 then Trace([], links)
    else
      var back := BackTrace(left - 1, id, t, links, w);
      Trace(Saved(left, id, t, Recovering, links) + back.records, back.links)
  }

  function TestTrace(left: nat, id: string, t: Ticket, links: Links, w: TestWorld): Trace {
    var now := w.schedule.after;
    if left == 0 then Trace([], links)
    else
      var prepared := Saved(left, id, t, Prepared, links);
      if w.schedule.Failed? then Trace(prepared, now)
      else if w.schedule.code != 0 then Trace(prepared + Saved(left - 1, id, t, State.Recovered, now), now)
      else
        var activated := ActivateTrace(left - 1, id, t, now, w.activation);
        Trace(prepared + activated.records, activated.links)
  }

  function ActivateTrace(left: nat, id: string, t: Ticket, links: Links, activation: Run): Trace {
    if left == 0 then Trace([], links)
    else
      var active := Succeeded(activation) && activation.after.runtime == Some(t.candidate);
      Trace(Saved(left, id, t, Activating, links) + [Issued(id, TestSwitch, t.candidate, Succeeded(activation))]
        + Saved(left - 1, id, t, if active then Active else ActivationFailed, activation.after), activation.after)
  }

  /** A schedule that fails takes the preparation back, unless the unit is already past it. */
  function ScheduleTrace(left: nat, id: string, mode: Mode, t: Ticket, links: Links, schedule: Run,
      meanwhile: Option<TransitionWorld>): Trace
  {
    match meanwhile
    case Some(w) => TransitionTrace(left, id, mode, t, links, w).(links := schedule.after)
    case None =>
      var back := if mode == Commit then Active else State.Committed;
      Trace(if Succeeded(schedule) then [] else Saved(left, id, t, back, schedule.after), schedule.after)
  }

  /** A preparation, and its schedule. */
  function PrepareTrace(left: nat, id: string, mode: Mode, t: Ticket, links: Links, schedule: Run,
      meanwhile: Option<TransitionWorld>): Trace
  {
    if left == 0 then Trace([], links)
    else
      var scheduled := ScheduleTrace(left - 1, id, mode, t, links, schedule, meanwhile);
      Trace(Saved(left, id, t, Expected(mode), links) + scheduled.records, scheduled.links)
  }

  /** What each call does to a machine with this journal and these links. */
  function TestCall(left: nat, sessions: Sessions, links: Links, id: string, target: string, uid: nat,
      fingerprint: string, candidate: string, w: TestWorld): Trace
  {
    if && w.verified && w.previousUsable && w.tools && links.runtime.Some? && links.profile.Some?
       && id !in sessions && AllFinished(sessions)
    then TestTrace(left, id, Ticket(target, uid, fingerprint, candidate, links.profile.value), links, w)
    else Trace([], links)
  }

  function RecoverCall(left: nat, sessions: Sessions, links: Links, id: string, w: RecoveryWorld): Trace {
    if id in sessions && Recoverable(sessions[id].state) && w.usable
    then RecoverTrace(left, id, sessions[id].ticket, links, w) else Trace([], links)
  }

  /** The session belongs to this user and target. */
  predicate IsTheirs(sessions: Sessions, id: string, target: string, uid: nat) {
    id in sessions && sessions[id].ticket.target == target && sessions[id].ticket.uid == uid
  }

  function UserCall(left: nat, sessions: Sessions, links: Links, id: string, target: string, uid: nat, tools: bool,
      unit: Option<RecoveryWorld>): Trace
  {
    if IsTheirs(sessions, id, target, uid) && tools && unit.Some?
    then RecoverCall(left, sessions, links, id, unit.value) else Trace([], links)
  }

  function CommitCall(left: nat, sessions: Sessions, links: Links, id: string, target: string, uid: nat,
      fingerprint: string, candidate: string, verified: bool, schedule: Run, meanwhile: Option<TransitionWorld>): Trace
  {
    if && verified && IsTheirs(sessions, id, target, uid) && sessions[id].state == Active
       && sessions[id].ticket.fingerprint == fingerprint && sessions[id].ticket.candidate == candidate
       && links == ExpectedLinks(Commit, sessions[id].ticket)
    then PrepareTrace(left, id, Commit, sessions[id].ticket, links, schedule, meanwhile)
    else Trace([], links)
  }

  function RollbackCall(left: nat, sessions: Sessions, links: Links, id: string, target: string, uid: nat,
      schedule: Run, meanwhile: Option<TransitionWorld>): Trace
  {
    if && IsTheirs(sessions, id, target, uid) && sessions[id].state == State.Committed
       && links == ExpectedLinks(Rollback, sessions[id].ticket)
    then PrepareTrace(left, id, Rollback, sessions[id].ticket, links, schedule, meanwhile)
    else Trace([], links)
  }

  function UnitCall(left: nat, sessions: Sessions, links: Links, id: string, mode: Mode, w: TransitionWorld): Trace {
    if id in sessions && sessions[id].state == Expected(mode)
    then TransitionTrace(left, id, mode, sessions[id].ticket, links, w) else Trace([], links)
  }

  /** One machine: its two links and its session journal. */
  class Machine {
    var links: Links
    var sessions: Sessions

    /** The journal takes this many more writes before the running call dies. */
    var writesLeft: nat

    ghost var log: seq<Record>

    ghost predicate Valid()
      reads this
    {
      Legal(log) && sessions == Replay(log)
    }

    predicate At(id: string, state: State)
      reads this
    {
      id in sessions && sessions[id].state == state
    }

    /** Exactly this was added to the history, and the links are where it leaves them. */
    twostate predicate Did(t: Trace)
      reads this
    {
      log == old(log) + t.records && links == t.links
    }

    constructor (initial: Links)
      ensures Valid() && sessions == map[] && links == initial && log == []
    {
      links, sessions, writesLeft, log := initial, map[], 0, [];
    }

    /** Another program, or the administrator, moves the links. */
    method Disturb(to: Links)
      requires Valid()
      modifies `links
      ensures Valid() && links == to
    {
      links := to;
    }

    /** A new call starts, which will be able to write the journal this often. */
    method Start(writes: nat)
      requires Valid()
      modifies `writesLeft
      ensures Valid() && writesLeft == writes
    {
      writesLeft := writes;
    }

    method Write(id: string, s: Session) returns (ok: bool)
      requires Valid() && Allowed(sessions, Wrote(id, s, links))
      modifies `sessions, `writesLeft, `log
      ensures Valid() && ok == (old(writesLeft) > 0)
      ensures ok ==> sessions == old(sessions)[id := s] && writesLeft == old(writesLeft) - 1
      ensures !ok ==> sessions == old(sessions) && writesLeft == 0
      ensures log == old(log) + if ok then [Wrote(id, s, links)] else []
    {
      ok := writesLeft > 0;
      if ok {
        LegalNext(log, Wrote(id, s, links));
        log := log + [Wrote(id, s, links)];
        sessions := sessions[id := s];
        writesLeft := writesLeft - 1;
      }
    }

    method Issue(id: string, command: Command, closure: string, run: Run) returns (ok: bool)
      requires Valid() && Allowed(sessions, Issued(id, command, closure, Succeeded(run)))
      requires InOrder(log, Issued(id, command, closure, Succeeded(run)))
      modifies `links, `log
      ensures Valid() && ok == Succeeded(run) && links == run.after
      ensures log == old(log) + [Issued(id, command, closure, ok)]
    {
      LegalNext(log, Issued(id, command, closure, Succeeded(run)));
      log := log + [Issued(id, command, closure, Succeeded(run))];
      links := run.after;
      ok := Succeeded(run);
    }

    /** Tests a candidate: a new session, a scheduled recovery, an activation. */
    method TestActivation(id: string, target: string, uid: nat, fingerprint: string, candidate: string, w: TestWorld)
      returns (r: Result)
      requires Valid()
      modifies `links, `sessions, `writesLeft, `log
      ensures Valid() && Did(old(TestCall(writesLeft, sessions, links, id, target, uid, fingerprint, candidate, w)))
      ensures sessions == old(sessions) || (id in sessions && sessions == old(sessions)[id := sessions[id]])
      ensures sessions != old(sessions) ==>
        && id !in old(sessions) && old(AllFinished(sessions)) && old(links.profile.Some?)
        && sessions[id].ticket == Ticket(target, uid, fingerprint, candidate, old(links).profile.value)
        && sessions[id].state in {Prepared, Activating, Active, ActivationFailed, State.Recovered}
      ensures sessions != old(sessions) && old(writesLeft) >= 3 ==> At(id, TestEnd(candidate, w))
      ensures r == Accepted ==> At(id, Active) && sessions != old(sessions) && links.runtime == Some(candidate)
      ensures r == Accepted <==>
        && id !in old(sessions) && old(AllFinished(sessions)) && old(links.runtime.Some? && links.profile.Some?)
        && w.verified && w.previousUsable && w.tools && Succeeded(w.schedule) && Succeeded(w.activation)
        && w.activation.after.runtime == Some(candidate) && old(writesLeft) >= 3
    {
      hide ActivateTrace, Replay, Legal, InOrder;
      r := Refused;
      if !w.verified || links.runtime.None? || links.profile.None? || !w.previousUsable || !w.tools {
        return;
      }
      var ticket := Ticket(target, uid, fingerprint, candidate, links.profile.value);
      if id in sessions || !AllFinished(sessions) {
        return;
      }
      var session := Session(Prepared, ticket);
      var ok := Write(id, session);
      if !ok { return; }
      links := w.schedule.after;
      if w.schedule.Failed? { return; }
      if w.schedule.code != 0 {
        ok := Write(id, session.(state := State.Recovered));
        return;
      }
      r := Activate(id, w.activation);
    }

    method Activate(id: string, activation: Run) returns (r: Result)
      requires Valid() && At(id, Prepared)
      modifies `links, `sessions, `writesLeft, `log
      ensures Valid() && Did(old(ActivateTrace(writesLeft, id, sessions[id].ticket, links, activation)))
      ensures id in sessions && sessions == old(sessions)[id := sessions[id]]
      ensures sessions[id].ticket == old(sessions)[id].ticket
      ensures sessions[id].state in {Prepared, Activating, Active, ActivationFailed}
      ensures old(writesLeft) >= 2 ==> At(id, if r == Accepted then Active else ActivationFailed)
      ensures r == Accepted ==> At(id, Active) && links.runtime == Some(sessions[id].ticket.candidate)
      ensures r == Accepted <==>
        && Succeeded(activation) && activation.after.runtime == Some(old(sessions)[id].ticket.candidate)
        && old(writesLeft) >= 2
    {
      hide Replay, Legal;
      r := Refused;
      var activating := sessions[id].(state := Activating);
      var ok := Write(id, activating);
      if !ok { return; }
      ok := Issue(id, TestSwitch, activating.ticket.candidate, activation);
      if activation.Failed? {
        ok := Write(id, activating.(state := ActivationFailed));
        return;
      }
      var succeeded := activation.code == 0 && links.runtime == Some(activating.ticket.candidate);
      ok := Write(id, activating.(state := if succeeded then Active else ActivationFailed));
      r := if ok && succeeded then Accepted else Refused;
    }

    /** Recovers the previous system of a session, as the timer or the user asks for. */
    method Recover(id: string, w: RecoveryWorld) returns (r: Result)
      requires Valid()
      modifies `links, `sessions, `writesLeft, `log
      ensures Valid() && Did(old(RecoverCall(writesLeft, sessions, links, id, w)))
      ensures id !in old(sessions) ==> sessions == old(sessions) && r == Refused
      ensures id in old(sessions) ==>
        && id in sessions && sessions == old(sessions)[id := sessions[id]]
        && sessions[id].ticket == old(sessions)[id].ticket
      ensures r == Accepted ==> At(id, State.Recovered)
      ensures id in old(sessions) && !(Recoverable(old(sessions)[id].state) && w.usable) ==>
        && sessions == old(sessions) && links == old(links)
        && r == if At(id, State.Recovered) then Accepted else Refused
      ensures id in old(sessions) && Recoverable(old(sessions)[id].state) && w.usable ==>
        && (At(id, State.Recovered) ==>
          && links.runtime == Some(sessions[id].ticket.previous)
          && links.profile in {None, Some(sessions[id].ticket.previous)})
        && (old(writesLeft) >= 2 ==>
          && At(id, RecoveryEnd(sessions[id].ticket, old(links), w))
          && r == if At(id, State.Recovered) then Accepted else Refused)
    {
      hide Replay, Legal, InOrder, BackTrace;
      r := Refused;
      if id !in sessions { return; }
      if sessions[id].state == State.Recovered {
        return Accepted;
      }
      if !Recoverable(sessions[id].state) || !w.usable { return; }
      var recovering := sessions[id].(state := Recovering);
      var ok := Write(id, recovering);
      if !ok { return; }
      r := GoBack(id, w);
    }

    /** The links are brought back, right after the journal said so. */
    method GoBack(id: string, w: RecoveryWorld) returns (r: Result)
      requires Valid() && At(id, Recovering) && log != [] && log[|log| - 1] == Wrote(id, sessions[id], links)
      modifies `links, `sessions, `writesLeft, `log
      ensures Valid() && Did(old(BackTrace(writesLeft, id, sessions[id].ticket, links, w)))
      ensures id in sessions && sessions == old(sessions)[id := sessions[id]]
      ensures sessions[id].ticket == old(sessions)[id].ticket
      ensures r == if At(id, State.Recovered) then Accepted else Refused
      ensures At(id, State.Recovered) ==>
        && links.runtime == Some(sessions[id].ticket.previous)
        && links.profile in {None, Some(sessions[id].ticket.previous)}
      ensures At(id, if old(writesLeft) == 0 then Recovering else RecoveryEnd(sessions[id].ticket, old(links), w))
    {
      hide Replay, Legal;
      var previous := sessions[id].ticket.previous;
      var profileMoved := links.profile.Some? && links.profile != Some(previous);
      if profileMoved {
        var ok := RestoreProfile(id, w);
        if !ok { return Refused; }
      }
      r := SwitchBack(id, profileMoved, w.switch);
    }

    /** The user asks for the recovery of a session of theirs; the unit may or may not have run, whatever
        its exit code says. */
    method RecoverTest(id: string, target: string, uid: nat, tools: bool, unit: Option<RecoveryWorld>,
        code: Option<int>)
      returns (r: Result)
      requires Valid()
      modifies `links, `sessions, `writesLeft, `log
      ensures Valid() && Did(old(UserCall(writesLeft, sessions, links, id, target, uid, tools, unit)))
      ensures r == Accepted <==>
        && old(IsTheirs(sessions, id, target, uid)) && At(id, State.Recovered)
        && (old(At(id, State.Recovered)) || (tools && code == Some(0)))
      ensures sessions == old(sessions) || (id in old(sessions) && id in sessions
        && old(sessions)[id].ticket.target == target && old(sessions)[id].ticket.uid == uid
        && sessions == old(sessions)[id := sessions[id]] && sessions[id].ticket == old(sessions)[id].ticket)
      ensures r == Accepted ==>
        && At(id, State.Recovered) && sessions[id].ticket.target == target && sessions[id].ticket.uid == uid
        && (old(At(id, State.Recovered)) || links.runtime == Some(sessions[id].ticket.previous))
    {
      r := Refused;
      if id !in sessions || sessions[id].ticket.target != target || sessions[id].ticket.uid != uid { return; }
      if sessions[id].state == State.Recovered {
        return Accepted;
      }
      if !tools { return; }
      if unit.Some? {
        r := Recover(id, unit.value);
      }
      r := if code == Some(0) && At(id, State.Recovered) then Accepted else Refused;
    }

    /** The journal has just been told that the session is being recovered, and the profile has moved. */
    ghost predicate JustMoved(id: string)
      reads this
    {
      && log != [] && log[|log| - 1].Wrote? && log[|log| - 1].id == id && log[|log| - 1].session.state == Recovering
      && ProfileMoved(log[|log| - 1])
    }

    method RestoreProfile(id: string, w: RecoveryWorld) returns (ok: bool)
      requires Valid() && At(id, Recovering) && JustMoved(id)
      modifies `links, `sessions, `writesLeft, `log
      ensures Valid() && ok == (w.nixEnv && Succeeded(w.setProfile))
      ensures ok ==> sessions == old(sessions) && writesLeft == old(writesLeft)
      ensures var t := old(sessions)[id].ticket;
        Did(if !w.nixEnv then Trace(Saved(old(writesLeft), id, t, RecoveryRequired, old(links)), old(links))
            else Trace([Issued(id, SetProfile, t.previous, Succeeded(w.setProfile))]
              + (if ok then [] else Saved(old(writesLeft), id, t, RecoveryRequired, w.setProfile.after)),
              w.setProfile.after))
      ensures !ok ==>
        sessions == if old(writesLeft) > 0 then old(sessions)[id := old(sessions)[id].(state := RecoveryRequired)]
                    else old(sessions)
    {
      ok := false;
      if w.nixEnv {
        ok := Issue(id, SetProfile, sessions[id].ticket.previous, w.setProfile);
      }
      if !ok {
        var _ := Write(id, sessions[id].(state := RecoveryRequired));
      }
    }

    method SwitchBack(id: string, permanent: bool, switch: Run) returns (r: Result)
      requires Valid() && At(id, Recovering)
      requires InOrder(log, Issued(id, if permanent then PermanentSwitch else TestSwitch, sessions[id].ticket.previous,
        Succeeded(switch)))
      modifies `links, `sessions, `writesLeft, `log
      ensures Valid() && links == switch.after
      ensures id in sessions && sessions == old(sessions)[id := sessions[id]]
      ensures var command := if permanent then PermanentSwitch else TestSwitch;
        log == old(log) + [Issued(id, command, sessions[id].ticket.previous, Succeeded(switch))]
          + if old(writesLeft) > 0 then [Wrote(id, sessions[id], links)] else []
      ensures sessions[id].ticket == old(sessions)[id].ticket
      ensures old(writesLeft) == 0 ==> sessions == old(sessions) && r == Refused
      ensures old(writesLeft) > 0 ==>
        (var t := sessions[id].ticket;
         var back :=
           && Succeeded(switch) && links.runtime == Some(t.previous) && links.profile in {None, Some(t.previous)};
         && At(id, if back then State.Recovered else RecoveryRequired)
         && r == if back then Accepted else Refused)
    {
      r := Refused;
      var recovering := sessions[id];
      var command := if permanent then PermanentSwitch else TestSwitch;
      var ok := Issue(id, command, recovering.ticket.previous, switch);
      if switch.Failed? {
        ok := Write(id, recovering.(state := RecoveryRequired));
        return;
      }
      var restored :=
        && switch.code == 0 && links.runtime == Some(recovering.ticket.previous)
        && (links.profile.None? || links.profile == Some(recovering.ticket.previous));
      ok := Write(id, recovering.(state := if restored then State.Recovered else RecoveryRequired));
      r := if ok && restored then Accepted else Refused;
    }

    /** Commits or rolls back: the unit that a prepared session schedules. */
    method Transition(id: string, mode: Mode, w: TransitionWorld) returns (r: Result)
      requires Valid()
      modifies `links, `sessions, `writesLeft, `log
      ensures Valid() && Did(old(UnitCall(writesLeft, sessions, links, id, mode, w)))
      ensures !old(At(id, Expected(mode))) ==>
        sessions == old(sessions) && links == old(links) && r == Refused && writesLeft == old(writesLeft)
      ensures old(At(id, Expected(mode))) ==>
        && id in sessions && sessions == old(sessions)[id := sessions[id]]
        && sessions[id].ticket == old(sessions)[id].ticket
        && (var t := sessions[id].ticket;
            && (sessions[id].state in {Expected(mode), Running(mode), TransitionEnd(mode, t, old(links), w)})
            && (At(id, State.Committed) ==> links == Both(t.candidate))
            && (At(id, RolledBack) || At(id, State.Recovered) ==> links == Both(t.previous))
            && (old(writesLeft) > 0 ==> !At(id, Expected(mode))) && (old(writesLeft) == 0 ==> writesLeft == 0)
            && (old(writesLeft) >= 2 ==>
              && At(id, TransitionEnd(mode, t, old(links), w))
              && r == if At(id, Success(mode)) then Accepted else Refused))
      ensures r == Accepted ==> old(At(id, Expected(mode))) && At(id, Success(mode))
    {
      hide CarryTrace, Clear, AfterTimer, MayMove, Replay, Legal, InOrder;
      r := Refused;
      if !At(id, Expected(mode)) { return; }
      var clear := Approach(id, mode, w);
      if clear {
        var session := sessions[id].(state := Running(mode));
        var ok := Write(id, session);
        if ok {
          r := Carry(id, mode, w);
        }
      }
    }

    /** Everything before the journal says that the transition is running. */
    method Approach(id: string, mode: Mode, w: TransitionWorld) returns (clear: bool)
      requires Valid() && At(id, Expected(mode))
      modifies `links, `sessions, `writesLeft, `log
      ensures Valid() && clear == Clear(mode, old(sessions)[id].ticket, old(links), w)
      ensures var t := old(sessions)[id].ticket; var now := AfterTimer(mode, t, old(links), w);
        Did(Trace(if clear then [] else Saved(old(writesLeft), id, t, Stuck(mode), now), now))
      ensures clear ==> sessions == old(sessions) && writesLeft == old(writesLeft)
      ensures old(writesLeft) == 0 ==> writesLeft == 0
      ensures !clear ==>
        sessions == if old(writesLeft) > 0 then old(sessions)[id := old(sessions)[id].(state := Stuck(mode))]
                    else old(sessions)
    {
      clear := w.usable && links == ExpectedLinks(mode, sessions[id].ticket) && w.tools;
      if clear && mode == Commit {
        links := w.stopTimer.after;
        clear := Succeeded(w.stopTimer);
      }
      if !clear {
        var _ := Write(id, sessions[id].(state := Stuck(mode)));
      }
    }

    /** Sets the profile, then switches. */
    method SetAndSwitch(id: string, closure: string, setProfile: Run, switch: Run) returns (reached: bool)
      requires Valid() && id in sessions && sessions[id].state in {Committing, RollingBack}
      requires closure in {sessions[id].ticket.candidate, sessions[id].ticket.previous}
      requires InOrder(log, Issued(id, SetProfile, closure, Succeeded(setProfile)))
      modifies `links, `log
      ensures Valid() && Did(PairTrace(id, closure, setProfile, switch))
      ensures reached == Reaches(setProfile, switch, closure)
      ensures reached ==> links == Both(closure)
    {
      var ok := Issue(id, SetProfile, closure, setProfile);
      reached := false;
      if ok {
        ok := Issue(id, PermanentSwitch, closure, switch);
        reached := ok && links == Both(closure);
      }
    }

    /** The running transition, with its compensation when it does not reach the destination. */
    method Carry(id: string, mode: Mode, w: TransitionWorld) returns (r: Result)
      requires Valid() && At(id, Running(mode))
      requires log != [] && log[|log| - 1].Wrote? && log[|log| - 1].id == id
        && log[|log| - 1].session == sessions[id]
      modifies `links, `sessions, `writesLeft, `log
      ensures Valid() && Did(old(CarryTrace(writesLeft, id, mode, sessions[id].ticket, w)))
      ensures id in sessions && sessions == old(sessions)[id := sessions[id]]
      ensures var t := sessions[id].ticket;
        var reached := Reaches(w.setProfile, w.switch, Destination(mode, t));
        var undone := Reaches(w.restoreProfile, w.restoreSwitch, Compensation(mode, t));
        && t == old(sessions)[id].ticket
        && (reached ==> links == Both(Destination(mode, t)))
        && (!reached && undone ==> links == Both(Compensation(mode, t)))
        && At(id, if old(writesLeft) == 0 then Running(mode) else if reached then Success(mode)
                  else if undone then Compensated(mode) else Stuck(mode))
        && r == if old(writesLeft) > 0 && reached then Accepted else Refused
    {
      hide Replay, Legal;
      var session := sessions[id];
      var t := session.ticket;
      var reached := SetAndSwitch(id, Destination(mode, t), w.setProfile, w.switch);
      var undone := false;
      if !reached {
        undone := SetAndSwitch(id, Compensation(mode, t), w.restoreProfile, w.restoreSwitch);
      }
      var end := if reached then Success(mode) else if undone then Compensated(mode) else Stuck(mode);
      var ok := Write(id, session.(state := end));
      r := if ok && reached then Accepted else Refused;
    }

    /** Asks for the commit of a tested system. The unit may already have run when scheduling it
        turns out to have failed. */
    method CommitTested(id: string, target: string, uid: nat, fingerprint: string, candidate: string,
        verified: bool, schedule: Run, meanwhile: Option<TransitionWorld>)
      returns (r: Result)
      requires Valid()
      modifies `links, `sessions, `writesLeft, `log
      ensures Valid()
      ensures Did(old(CommitCall(writesLeft, sessions, links, id, target, uid, fingerprint, candidate, verified,
        schedule, meanwhile)))
      ensures sessions != old(sessions) ==>
        && old(At(id, Active)) && verified
        && old(links) == Links(Some(candidate), Some(old(sessions)[id].ticket.previous))
        && old(sessions)[id].ticket == Ticket(target, uid, fingerprint, candidate, old(sessions)[id].ticket.previous)
        && id in sessions && sessions == old(sessions)[id := sessions[id]]
        && sessions[id].ticket == old(sessions)[id].ticket
      ensures r == Accepted <==>
        && verified && old(At(id, Active))
        && old(links) == Links(Some(candidate), Some(old(sessions)[id].ticket.previous))
        && old(sessions)[id].ticket == Ticket(target, uid, fingerprint, candidate, old(sessions)[id].ticket.previous)
        && old(writesLeft) > 0 && Succeeded(schedule)
      ensures r == Accepted && meanwhile.None? ==> At(id, CommitPrepared)
      ensures r == Refused && meanwhile.None? && old(writesLeft) != 1 ==> sessions == old(sessions)
    {
      hide ScheduleTrace, Replay, Legal, InOrder;
      r := Refused;
      if !verified || !At(id, Active) { return; }
      var t := sessions[id].ticket;
      if t.target != target || t.uid != uid || t.fingerprint != fingerprint || t.candidate != candidate { return; }
      if links != Links(Some(t.candidate), Some(t.previous)) { return; }
      var ok := Write(id, sessions[id].(state := CommitPrepared));
      if !ok { return; }
      r := Schedule(id, Commit, schedule, meanwhile);
    }

    /** Asks for the rollback of a committed system. */
    method RollbackCommitted(id: string, target: string, uid: nat, schedule: Run, meanwhile: Option<TransitionWorld>)
      returns (r: Result)
      requires Valid()
      modifies `links, `sessions, `writesLeft, `log
      ensures Valid()
      ensures Did(old(RollbackCall(writesLeft, sessions, links, id, target, uid, schedule, meanwhile)))
      ensures sessions != old(sessions) ==>
        && old(At(id, State.Committed)) && old(links) == Both(old(sessions)[id].ticket.candidate)
        && old(sessions)[id].ticket.target == target && old(sessions)[id].ticket.uid == uid
        && id in sessions && sessions == old(sessions)[id := sessions[id]]
        && sessions[id].ticket == old(sessions)[id].ticket
      ensures r == Accepted <==>
        && old(At(id, State.Committed)) && old(links) == Both(old(sessions)[id].ticket.candidate)
        && old(sessions)[id].ticket.target == target && old(sessions)[id].ticket.uid == uid
        && old(writesLeft) > 0 && Succeeded(schedule)
      ensures r == Accepted && meanwhile.None? ==> At(id, RollbackPrepared)
      ensures r == Refused && meanwhile.None? && old(writesLeft) != 1 ==> sessions == old(sessions)
    {
      hide ScheduleTrace, Replay, Legal, InOrder;
      r := Refused;
      if !At(id, State.Committed) { return; }
      var t := sessions[id].ticket;
      if t.target != target || t.uid != uid || links != Both(t.candidate) { return; }
      var ok := Write(id, sessions[id].(state := RollbackPrepared));
      if !ok { return; }
      r := Schedule(id, Rollback, schedule, meanwhile);
    }

    /** Schedules the unit of a prepared session; when that fails, takes the preparation back unless
        the unit is already past it. */
    method Schedule(id: string, mode: Mode, schedule: Run, meanwhile: Option<TransitionWorld>) returns (r: Result)
      requires Valid() && At(id, Expected(mode))
      modifies `links, `sessions, `writesLeft, `log
      ensures Valid()
      ensures Did(old(ScheduleTrace(writesLeft, id, mode, sessions[id].ticket, links, schedule, meanwhile)))
      ensures id in sessions && sessions == old(sessions)[id := sessions[id]]
      ensures sessions[id].ticket == old(sessions)[id].ticket
      ensures r == Accepted <==> Succeeded(schedule)
      ensures meanwhile.None? ==>
        At(id, if Succeeded(schedule) || old(writesLeft) == 0 then Expected(mode)
               else if mode == Commit then Active else State.Committed)
    {
      hide TransitionTrace, Replay, Legal, InOrder;
      if meanwhile.Some? {
        r := Transition(id, mode, meanwhile.value);
      }
      links := schedule.after;
      r := if Succeeded(schedule) then Accepted else Refused;
      if r == Refused && At(id, Expected(mode)) {
        var _ := Write(id, sessions[id].(state := if mode == Commit then Active else State.Committed));
      }
    }
  }
}
