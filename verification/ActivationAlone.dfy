/** The two models of activation agree: what the machine does one call after the other is a run of the
    interleaving model, in which each call is left alone. */
module ActivationAlone {
  import opened Basics
  import opened ActivationModel
  import opened Activation
  import opened ActivationHistory
  import opened ActivationInterleaving

  /** The sessions after these records. */
  function Kept(sessions: Sessions, records: seq<Record>): Sessions {
    if records == [] then sessions
    else After(Kept(sessions, records[..|records| - 1]), records[|records| - 1])
  }

  lemma KeptNext(sessions: Sessions, records: seq<Record>, r: Record)
    ensures Kept(sessions, records + [r]) == After(Kept(sessions, records), r)
  {
    assert (records + [r])[..|records|] == records;
  }

  lemma {:induction false} KeptIsReplayed(log: seq<Record>, records: seq<Record>)
    ensures Kept(Replay(log), records) == Replay(log + records)
  {
    if records == [] {
      assert log + records == log;
    } else {
      var init := records[..|records| - 1];
      KeptIsReplayed(log, init);
      assert (log + records)[..|log + records| - 1] == log + init;
    }
  }

  /** Since `w` the call `c`, begun after all others, has added these records and left the links there. */
  ghost predicate Here(w: World, u: World, c: Flight, records: seq<Record>, links: Links, lock: Option<nat>) {
    && u.flights == w.flights + [c] && u.links == links && u.lock == lock
    && u.log == w.log + records && u.sessions == Kept(w.sessions, records)
  }

  lemma Moves(w: World, u: World, c: Flight, records: seq<Record>, links: Links, lock: Option<nat>, next: Flight,
      to: Links)
    requires Here(w, u, c, records, links, lock)
    ensures Here(w, Put(u.(links := to), |w.flights|, next), next, records, to, lock)
  {
  }

  lemma Writes(w: World, u: World, c: Flight, records: seq<Record>, links: Links, lock: Option<nat>, s: Session,
      n: Note, next: Flight)
    requires Here(w, u, c, records, links, lock)
    ensures Here(w, Put(Save(u, c.id, s, n), |w.flights|, next), next, records + [Wrote(c.id, s, links)], links, lock)
  {
    KeptNext(w.sessions, records, Wrote(c.id, s, links));
  }

  lemma Issues(w: World, u: World, c: Flight, records: seq<Record>, links: Links, lock: Option<nat>,
      command: Command, closure: string, run: Run, next: Flight)
    requires Here(w, u, c, records, links, lock)
    ensures Here(w, Put(Order(u, c.id, command, closure, run), |w.flights|, next), next,
      records + [Issued(c.id, command, closure, Succeeded(run))], run.after, lock)
  {
    KeptNext(w.sessions, records, Issued(c.id, command, closure, Succeeded(run)));
  }

  /** Only this call goes on, until it may die. */
  predicate Own(events: seq<Event>, f: nat) {
    forall e <- events :: (e.Goes? || e.Dies?) && e.f == f
  }

  lemma {:induction false} PlayedOn(w: World, a: seq<Event>, b: seq<Event>)
    ensures Played(w, a + b) == Played(Played(w, a), b)
  {
    if b == [] {
      assert a + b == a;
    } else {
      PlayedOn(w, a, b[..|b| - 1]);
      assert (a + b)[..|a + b| - 1] == a + b[..|b| - 1];
    }
  }

  lemma PlayedFirst(w: World, e: Event, events: seq<Event>)
    ensures Played(w, [e] + events) == Played(Step(w, e), events)
  {
    PlayedOn(w, [e], events);
    assert [e][..0] == [];
  }

  lemma PlayedOnce(w: World, e: Event)
    ensures Played(w, [e]) == Step(w, e)
  {
    assert [e][..0] == [];
  }

  /** The last write, or the end of the call before it. */
  lemma Lands(w: World, u: World, c: Flight, records: seq<Record>, links: Links, lock: Option<nat>, left: nat)
    returns (events: seq<Event>)
    requires Here(w, u, c, records, links, lock) && lock in {None, Some(|w.flights|)}
    requires c.errand.Landing? && c.errand.to != Activating
    ensures Own(events, |w.flights|)
    ensures Here(w, Played(u, events), c.(errand := Done),
      records + Saved(left, c.id, c.held.ticket, c.errand.to, links), links, None)
  {
    var f := |w.flights|;
    assert records + [] == records;
    var e := if left == 0 then Dies(f) else Goes(f, Exited(0, links), true);
    events := [e];
    PlayedOnce(u, e);
    Moves(w, u, c, records, links, lock, c.(errand := Done), links);
    Writes(w, u, c, records, links, lock, c.held.(state := c.errand.to),
      Note(Some(c.held.state), c.errand.seen, u.lock != Some(f)), c.(errand := Done));
  }

  /** A command, and what the call does next. */
  lemma Runs(w: World, u: World, c: Flight, records: seq<Record>, links: Links, run: Run, again: bool, next: Errand)
    requires Here(w, u, c, records, links, None)
    requires (c.errand.Setting? || c.errand.Switching?) && again == c.errand.again
    requires next ==
      if c.errand.Setting? && Succeeded(run) then Switching(c.errand.mode, again)
      else if c.errand.Switching? && Succeeded(run) && run.after == Both(ClosureOf(c.errand.mode, again, c.held.ticket))
      then Landing(if again then Compensated(c.errand.mode) else Success(c.errand.mode), run.after)
      else if again then Landing(Stuck(c.errand.mode), run.after)
      else Setting(c.errand.mode, true)
    ensures Here(w, Step(u, Goes(|w.flights|, run, true)), c.(errand := next),
      records + [Issued(c.id, if c.errand.Setting? then SetProfile else PermanentSwitch,
        ClosureOf(c.errand.mode, again, c.held.ticket), Succeeded(run))], run.after, None)
  {
    Issues(w, u, c, records, links, None, if c.errand.Setting? then SetProfile else PermanentSwitch,
      ClosureOf(c.errand.mode, again, c.held.ticket), run, c.(errand := next));
    hide Kept;
  }

  /** What comes of setting the profile and switching, either to the destination or back. */
  function Onwards(mode: Mode, again: bool, t: Ticket, setProfile: Run, switch: Run): Errand {
    var closure := ClosureOf(mode, again, t);
    if Reaches(setProfile, switch, closure) then
      Landing(if again then Compensated(mode) else Success(mode), switch.after)
    else if again then Landing(Stuck(mode), if Succeeded(setProfile) then switch.after else setProfile.after)
    else Setting(mode, true)
  }

  lemma Pairs(w: World, u: World, c: Flight, records: seq<Record>, links: Links, setProfile: Run, switch: Run)
    returns (events: seq<Event>)
    requires Here(w, u, c, records, links, None) && c.errand.Setting?
    ensures Own(events, |w.flights|)
    ensures var (mode, again) := (c.errand.mode, c.errand.again);
      var pair := PairTrace(c.id, ClosureOf(mode, again, c.held.ticket), setProfile, switch);
      Here(w, Played(u, events), c.(errand := Onwards(mode, again, c.held.ticket, setProfile, switch)),
        records + pair.records, pair.links, None)
  {
    hide Here, Step;
    var f := |w.flights|;
    var (mode, again) := (c.errand.mode, c.errand.again);
    var closure := ClosureOf(mode, again, c.held.ticket);
    var first := Goes(f, setProfile, true);
    PlayedOnce(u, first);
    if !Succeeded(setProfile) {
      events := [first];
      Runs(w, u, c, records, links, setProfile, again, Onwards(mode, again, c.held.ticket, setProfile, switch));
    } else {
      var second := Goes(f, switch, true);
      var done := [Issued(c.id, SetProfile, closure, true)];
      Runs(w, u, c, records, links, setProfile, again, Switching(mode, again));
      Runs(w, Step(u, first), c.(errand := Switching(mode, again)), records + done, setProfile.after, switch, again,
        Onwards(mode, again, c.held.ticket, setProfile, switch));
      events := [first] + [second];
      PlayedFirst(u, first, [second]);
      PlayedOnce(Step(u, first), second);
      assert records + PairTrace(c.id, closure, setProfile, switch).records ==
        records + done + [Issued(c.id, PermanentSwitch, closure, Succeeded(switch))];
    }
  }

  /** The running part of a unit, with its compensation. */
  lemma Carries(w: World, u: World, c: Flight, records: seq<Record>, links: Links, left: nat, mode: Mode,
      tw: TransitionWorld) returns (events: seq<Event>)
    requires Here(w, u, c, records, links, None) && c.errand == Setting(mode, false)
    ensures Own(events, |w.flights|)
    ensures var carried := CarryTrace(left, c.id, mode, c.held.ticket, tw);
      Here(w, Played(u, events), c.(errand := Done), records + carried.records, carried.links, None)
  {
    hide Here, Step;
    var t := c.held.ticket;
    var there := PairTrace(c.id, Destination(mode, t), tw.setProfile, tw.switch);
    var back := PairTrace(c.id, Compensation(mode, t), tw.restoreProfile, tw.restoreSwitch);
    var go := Pairs(w, u, c, records, links, tw.setProfile, tw.switch);
    var v, d, done := Played(u, go), c.(errand := Onwards(mode, false, t, tw.setProfile, tw.switch)),
      records + there.records;
    if !Reaches(tw.setProfile, tw.switch, Destination(mode, t)) {
      var comeBack := Pairs(w, v, d, done, there.links, tw.restoreProfile, tw.restoreSwitch);
      var last := d.(errand := Onwards(mode, true, t, tw.restoreProfile, tw.restoreSwitch));
      var land := Lands(w, Played(v, comeBack), last, done + back.records, back.links, None, left);
      events := go + (comeBack + land);
      PlayedOn(u, go, comeBack + land);
      PlayedOn(v, comeBack, land);
      var undone := Reaches(tw.restoreProfile, tw.restoreSwitch, Compensation(mode, t));
      var end := Saved(left, c.id, t, if undone then Compensated(mode) else Stuck(mode), back.links);
      assert done + back.records + end == records + (there.records + back.records + end);
    } else {
      var land := Lands(w, v, d, done, there.links, None, left);
      events := go + land;
      PlayedOn(u, go, land);
      var end := Saved(left, c.id, t, Success(mode), there.links);
      assert done + end == records + (there.records + end);
    }
  }

  /** Since `w` calls were begun and ended that added this, and nothing is under way that was not before. */
  ghost predicate Ended(w: World, u: World, t: Trace) {
    && u.log == w.log + t.records && u.links == t.links && u.sessions == Kept(w.sessions, t.records) && u.lock.None?
    && w.flights <= u.flights && forall k :: |w.flights| <= k < |u.flights| ==> u.flights[k].errand.Done?
  }

  lemma HereEnded(w: World, u: World, c: Flight, t: Trace)
    requires Here(w, u, c, t.records, t.links, None) && c.errand.Done?
    ensures Ended(w, u, t)
  {
  }

  /** Goes on with one step, and then as `rest`. */
  lemma Joined(u: World, e: Event, rest: seq<Event>, f: nat) returns (events: seq<Event>)
    requires Own([e], f) && Own(rest, f)
    ensures Own(events, f) && Played(u, events) == Played(Step(u, e), rest)
  {
    events := [e] + rest;
    assert e in [e];
    PlayedFirst(u, e, rest);
  }

  lemma LooksAgain(w: World, u: World, c: Flight, links: Links, mode: Mode, running: Session)
    requires Here(w, u, c, [], links, None) && c.errand == Entering(mode)
    requires c.id in w.sessions && w.sessions[c.id] == c.held && c.held.state == Expected(mode)
    requires running == c.held.(state := Running(mode))
    ensures Here(w, Step(u, Goes(|w.flights|, Exited(0, links), true)), Flight(c.id, running, Setting(mode, false)),
      [Wrote(c.id, running, links)], links, None)
  {
    Writes(w, u, c, [], links, None, running, Note(Some(Expected(mode)), links, false),
      Flight(c.id, running, Setting(mode, false)));
    assert [] + [Wrote(c.id, running, links)] == [Wrote(c.id, running, links)];
  }

  /** A call that dies. */
  lemma Perishes(w: World, u: World, c: Flight, records: seq<Record>, links: Links) returns (events: seq<Event>)
    requires Here(w, u, c, records, links, None)
    ensures Own(events, |w.flights|) && Ended(w, Played(u, events), Trace(records, links))
  {
    events := [Dies(|w.flights|)];
    PlayedOnce(u, Dies(|w.flights|));
    Moves(w, u, c, records, links, None, c.(errand := Done), links);
    HereEnded(w, Played(u, events), c.(errand := Done), Trace(records, links));
  }

  /** A unit from its second look on. */
  lemma Enters(w: World, u: World, c: Flight, links: Links, left: nat, mode: Mode, tw: TransitionWorld)
    returns (events: seq<Event>)
    requires Here(w, u, c, [], links, None) && c.errand == Entering(mode)
    requires c.id in w.sessions && w.sessions[c.id] == c.held && c.held.state == Expected(mode)
    ensures Own(events, |w.flights|)
    ensures
      var t := c.held.ticket;
      var carried := CarryTrace(if left > 0 then left - 1 else 0, c.id, mode, t, tw);
      Ended(w, Played(u, events),
        if left == 0 then Trace([], links)
        else Trace([Wrote(c.id, Session(Running(mode), t), links)] + carried.records, carried.links))
  {
    hide CarryTrace, Ended, Here, Step, Played;
    if left == 0 {
      events := Perishes(w, u, c, [], links);
    } else {
      var f, t := |w.flights|, c.held.ticket;
      var e := Goes(f, Exited(0, links), true);
      var running := c.held.(state := Running(mode));
      var next, begun := Flight(c.id, running, Setting(mode, false)), [Wrote(c.id, running, links)];
      LooksAgain(w, u, c, links, mode, running);
      var rest := Carries(w, Step(u, e), next, begun, links, left - 1, mode, tw);
      events := Joined(u, e, rest, f);
      var carried := CarryTrace(left - 1, c.id, mode, t, tw);
      HereEnded(w, Played(u, events), next.(errand := Done), Trace(begun + carried.records, carried.links));
    }
  }

  /** A unit. */
  lemma UnitAlone(w: World, id: string, mode: Mode, left: nat, tw: TransitionWorld) returns (events: seq<Event>)
    requires w.lock.None? && id in w.sessions && w.sessions[id].state == Expected(mode)
    ensures Own(events, |w.flights|)
    ensures Ended(w, Played(Step(w, UnitStarts(id, mode)), events),
      TransitionTrace(left, id, mode, w.sessions[id].ticket, w.links, tw))
  {
    hide CarryTrace, Ended;
    var u, f, c := Step(w, UnitStarts(id, mode)), |w.flights|, Flight(id, w.sessions[id], Approaching(mode));
    var e := Goes(f, tw.stopTimer, tw.usable && tw.tools);
    var t, now := c.held.ticket, AfterTimer(mode, c.held.ticket, w.links, tw);
    assert Here(w, u, c, [], w.links, None);
    if Clear(mode, t, w.links, tw) {
      var next := c.(errand := Entering(mode));
      Moves(w, u, c, [], w.links, None, next, now);
      var rest := Enters(w, Step(u, e), next, now, left, mode, tw);
      events := Joined(u, e, rest, f);
    } else {
      var next := c.(errand := Landing(Stuck(mode), now));
      Moves(w, u, c, [], w.links, None, next, now);
      var rest := Lands(w, Step(u, e), next, [], now, None, left);
      events := Joined(u, e, rest, f);
      var saved := Saved(left, id, t, Stuck(mode), now);
      assert [] + saved == saved;
      HereEnded(w, Played(u, events), next.(errand := Done), Trace(saved, now));
    }
  }

  /** The first command of a recovery, if there is one, and what comes after it. */
  lemma Resets(w: World, u: World, c: Flight, records: seq<Record>, links: Links, rw: RecoveryWorld, next: Errand,
      done: seq<Record>, now: Links)
    requires Here(w, u, c, records, links, Some(|w.flights|)) && c.errand == Resetting
    requires
      var previous := c.held.ticket.previous;
      (next, done, now) ==
        if links.profile in {None, Some(previous)} then (SwitchingBack(false), [], links)
        else if !rw.nixEnv then (Landing(RecoveryRequired, links), [], links)
        else (
          if Succeeded(rw.setProfile) then SwitchingBack(true) else Landing(RecoveryRequired, rw.setProfile.after),
          [Issued(c.id, SetProfile, previous, Succeeded(rw.setProfile))], rw.setProfile.after)
    ensures Here(w, Step(u, Goes(|w.flights|, rw.setProfile, rw.nixEnv)), c.(errand := next), records + done, now,
      Some(|w.flights|))
  {
    assert records + [] == records;
    Moves(w, u, c, records, links, Some(|w.flights|), c.(errand := next), links);
    Issues(w, u, c, records, links, Some(|w.flights|), SetProfile, c.held.ticket.previous, rw.setProfile,
      c.(errand := next));
  }

  /** The last command of a recovery. */
  lemma SwitchesBack(w: World, u: World, c: Flight, records: seq<Record>, links: Links, switch: Run, to: State)
    requires Here(w, u, c, records, links, Some(|w.flights|)) && c.errand.SwitchingBack?
    requires
      var previous := Some(c.held.ticket.previous);
      to == if Succeeded(switch) && switch.after.runtime == previous && switch.after.profile in {None, previous}
            then State.Recovered else RecoveryRequired
    ensures
      var command := if c.errand.permanent then PermanentSwitch else TestSwitch;
      Here(w, Step(u, Goes(|w.flights|, switch, true)), c.(errand := Landing(to, switch.after)),
        records + [Issued(c.id, command, c.held.ticket.previous, Succeeded(switch))], switch.after,
        Some(|w.flights|))
  {
    var command := if c.errand.permanent then PermanentSwitch else TestSwitch;
    Issues(w, u, c, records, links, Some(|w.flights|), command, c.held.ticket.previous, switch,
      c.(errand := Landing(to, switch.after)));
  }

  /** A recovery once the journal says so. */
  lemma ComesBack(w: World, u: World, c: Flight, records: seq<Record>, links: Links, left: nat, rw: RecoveryWorld)
    returns (events: seq<Event>)
    requires Here(w, u, c, records, links, Some(|w.flights|)) && c.errand == Resetting
    ensures Own(events, |w.flights|)
    ensures
      var back := BackTrace(left, c.id, c.held.ticket, links, rw);
      Ended(w, Played(u, events), Trace(records + back.records, back.links))
  {
    hide Ended, Here, Step, Played;
    var f, t := |w.flights|, c.held.ticket;
    var e := Goes(f, rw.setProfile, rw.nixEnv);
    var moved := links.profile !in {None, Some(t.previous)};
    if moved && (!rw.nixEnv || !Succeeded(rw.setProfile)) {
      var now := if rw.nixEnv then rw.setProfile.after else links;
      var done := if rw.nixEnv then [Issued(c.id, SetProfile, t.previous, false)] else [];
      var next := c.(errand := Landing(RecoveryRequired, now));
      Resets(w, u, c, records, links, rw, next.errand, done, now);
      var rest := Lands(w, Step(u, e), next, records + done, now, Some(f), left);
      events := Joined(u, e, rest, f);
      var end := Saved(left, c.id, t, RecoveryRequired, now);
      assert records + done + end == records + BackTrace(left, c.id, t, links, rw).records;
      HereEnded(w, Played(u, events), next.(errand := Done), Trace(records + done + end, now));
    } else {
      var now := if moved then rw.setProfile.after else links;
      var done := if moved then [Issued(c.id, SetProfile, t.previous, true)] else [];
      var next, to := c.(errand := SwitchingBack(moved)), RecoveryEnd(t, links, rw);
      var switched := next.(errand := Landing(to, rw.switch.after));
      var command := if moved then PermanentSwitch else TestSwitch;
      var issued := records + done + [Issued(c.id, command, t.previous, Succeeded(rw.switch))];
      Resets(w, u, c, records, links, rw, next.errand, done, now);
      SwitchesBack(w, Step(u, e), next, records + done, now, rw.switch, to);
      var go := Goes(f, rw.switch, true);
      var land := Lands(w, Step(Step(u, e), go), switched, issued, rw.switch.after, Some(f), left);
      var rest := Joined(Step(u, e), go, land, f);
      events := Joined(u, e, rest, f);
      var end := Saved(left, c.id, t, to, rw.switch.after);
      assert issued + end == records + BackTrace(left, c.id, t, links, rw).records;
      HereEnded(w, Played(u, events), switched.(errand := Done), Trace(issued + end, rw.switch.after));
    }
  }

  /** A recovery. */
  lemma RecoveryAlone(w: World, id: string, left: nat, rw: RecoveryWorld) returns (events: seq<Event>)
    requires w.lock.None? && id in w.sessions && Recoverable(w.sessions[id].state) && left > 0
    ensures Own(events, |w.flights|)
    ensures Ended(w, Played(Step(w, RecoveryStarts(id)), events),
      RecoverTrace(left, id, w.sessions[id].ticket, w.links, rw))
  {
    hide Ended, Played, BackTrace;
    var u, t := Step(w, RecoveryStarts(id)), w.sessions[id].ticket;
    var c := Flight(id, Session(Recovering, t), Resetting);
    var begun := [Wrote(id, c.held, w.links)];
    KeptNext(w.sessions, [], begun[0]);
    assert [] + begun == begun;
    assert Here(w, u, c, begun, w.links, Some(|w.flights|));
    events := ComesBack(w, u, c, begun, w.links, left - 1, rw);
  }

  /** A test. */
  lemma TestAlone(w: World, id: string, t: Ticket, left: nat, tw: TestWorld) returns (events: seq<Event>)
    requires w.lock.None? && id !in w.sessions && AllFinished(w.sessions) && left > 0
    requires w.links.runtime.Some? && w.links.profile == Some(t.previous)
    ensures Own(events, |w.flights|)
    ensures Ended(w, Played(Step(w, TestAsked(id, t.target, t.uid, t.fingerprint, t.candidate)), events),
      TestTrace(left, id, t, w.links, tw))
  {
    hide Ended;
    var u, f := Step(w, TestAsked(id, t.target, t.uid, t.fingerprint, t.candidate)), |w.flights|;
    var c := Flight(id, Session(Prepared, t), Creating(w.links));
    var create, arm := Goes(f, tw.schedule, true), Goes(f, tw.schedule, true);
    var created := c.(errand := Arming);
    var prepared := [Wrote(id, c.held, w.links)];
    assert Here(w, u, c, [], w.links, None);
    Writes(w, u, c, [], w.links, None, c.held, Note(None, w.links, false), created);
    assert [] + prepared == prepared;
    var middle, now := Step(u, create), tw.schedule.after;
    var next := created.(errand := if tw.schedule.Failed? then Done
      else Landing(if tw.schedule.code == 0 then Activating else State.Recovered, now));
    Moves(w, middle, created, prepared, w.links, None, next, now);
    var rest := [];
    if tw.schedule.Failed? {
      HereEnded(w, Step(middle, arm), next, Trace(prepared, now));
    } else if tw.schedule.code != 0 {
      rest := Lands(w, Step(middle, arm), next, prepared, now, None, left - 1);
      HereEnded(w, Played(Step(middle, arm), rest), next.(errand := Done),
        Trace(prepared + Saved(left - 1, id, t, State.Recovered, now), now));
    } else {
      rest := Activates(w, Step(middle, arm), next, prepared, now, left - 1, tw.activation);
    }
    var more := Joined(middle, arm, rest, f);
    events := Joined(u, create, more, f);
  }

  /** The activation of a test. */
  lemma Activates(w: World, u: World, c: Flight, records: seq<Record>, links: Links, left: nat, activation: Run)
    returns (events: seq<Event>)
    requires Here(w, u, c, records, links, None) && c.errand == Landing(Activating, links)
    ensures Own(events, |w.flights|)
    ensures
      var activated := ActivateTrace(left, c.id, c.held.ticket, links, activation);
      Ended(w, Played(u, events), Trace(records + activated.records, activated.links))
  {
    hide Ended, Here, Step, Played;
    var f, t := |w.flights|, c.held.ticket;
    if left == 0 {
      events := Perishes(w, u, c, records, links);
      assert records + [] == records;
    } else {
      var land, test := Goes(f, activation, true), Goes(f, activation, true);
      var active := Succeeded(activation) && activation.after.runtime == Some(t.candidate);
      var end := if active then Active else ActivationFailed;
      var next := Flight(c.id, Session(Activating, t), Landing(end, activation.after));
      var begun := records + [Wrote(c.id, Session(Activating, t), links)];
      var tested := begun + [Issued(c.id, TestSwitch, t.candidate, Succeeded(activation))];
      Tests(w, u, c, records, links, activation, next);
      var rest := Lands(w, Step(Step(u, land), test), next, tested, activation.after, None, left - 1);
      var more := Joined(Step(u, land), test, rest, f);
      events := Joined(u, land, more, f);
      var ended := Saved(left - 1, c.id, t, end, activation.after);
      assert tested + ended == records + ActivateTrace(left, c.id, t, links, activation).records;
      HereEnded(w, Played(u, events), next.(errand := Done), Trace(tested + ended, activation.after));
    }
  }

  lemma Tests(w: World, u: World, c: Flight, records: seq<Record>, links: Links, activation: Run, next: Flight)
    requires Here(w, u, c, records, links, None) && c.errand == Landing(Activating, links)
    requires next == Flight(c.id, c.held.(state := Activating), Landing(
      if Succeeded(activation) && activation.after.runtime == Some(c.held.ticket.candidate) then Active
      else ActivationFailed, activation.after))
    ensures
      var go := Goes(|w.flights|, activation, true);
      Here(w, Step(Step(u, go), go), next,
        records + [Wrote(c.id, c.held.(state := Activating), links)]
          + [Issued(c.id, TestSwitch, c.held.ticket.candidate, Succeeded(activation))], activation.after, None)
  {
    var go, testing := Goes(|w.flights|, activation, true), Flight(c.id, c.held.(state := Activating), Testing);
    Writes(w, u, c, records, links, None, testing.held, Note(Some(c.held.state), links, true), testing);
    Issues(w, Step(u, go), testing, records + [Wrote(c.id, testing.held, links)], links, None, TestSwitch,
      c.held.ticket.candidate, activation, next);
  }

  function Asked(id: string, mode: Mode): Event {
    if mode == Commit then CommitAsked(id) else RollbackAsked(id)
  }

  /** A commit or rollback that is asked for, and its schedule. */
  lemma PreparationAlone(w: World, id: string, mode: Mode, left: nat, schedule: Run) returns (events: seq<Event>)
    requires w.lock.None? && id in w.sessions && w.sessions[id].state == Withdrawn(mode) && left > 0
    requires w.links == ExpectedLinks(mode, w.sessions[id].ticket)
    ensures Own(events, |w.flights|)
    ensures Ended(w, Played(Step(w, Asked(id, mode)), events),
      PrepareTrace(left, id, mode, w.sessions[id].ticket, w.links, schedule, None))
  {
    hide Ended;
    var u, f, t := Step(w, Asked(id, mode)), |w.flights|, w.sessions[id].ticket;
    var c := IsPrepared(w, id, mode);
    var prepared := [Wrote(id, c.held, w.links)];
    var scheduled := Goes(f, schedule, true);
    var next := c.(errand := if Succeeded(schedule) then Done else TakingBack(mode));
    Moves(w, u, c, prepared, w.links, None, next, schedule.after);
    var now := Step(u, scheduled);
    var rest := [];
    var taken := if Succeeded(schedule) then [] else Saved(left - 1, id, t, Withdrawn(mode), schedule.after);
    assert prepared + [] == prepared;
    if !Succeeded(schedule) {
      var e := if left == 1 then Dies(f) else Goes(f, schedule, true);
      rest := [e];
      PlayedOnce(now, e);
      KeptNext(w.sessions, [], prepared[0]);
      assert [] + prepared == prepared;
      Moves(w, now, next, prepared, schedule.after, None, next.(errand := Done), schedule.after);
      Writes(w, now, next, prepared, schedule.after, None, Session(Withdrawn(mode), t),
        Note(Some(Expected(mode)), schedule.after, false), next.(errand := Done));
    }
    HereEnded(w, Played(now, rest), next.(errand := Done), Trace(prepared + taken, schedule.after));
    events := Joined(u, scheduled, rest, f);
  }

  lemma IsPrepared(w: World, id: string, mode: Mode) returns (c: Flight)
    requires w.lock.None? && id in w.sessions && w.sessions[id].state == Withdrawn(mode)
    requires w.links == ExpectedLinks(mode, w.sessions[id].ticket)
    ensures c == Flight(id, Session(Expected(mode), w.sessions[id].ticket), Preparing(mode))
    ensures Here(w, Step(w, Asked(id, mode)), c, [Wrote(id, c.held, w.links)], w.links, None)
    ensures Step(w, Asked(id, mode)).sessions == w.sessions[id := c.held]
  {
    c := Flight(id, Session(Expected(mode), w.sessions[id].ticket), Preparing(mode));
    KeptNext(w.sessions, [], Wrote(id, c.held, w.links));
    assert [] + [Wrote(id, c.held, w.links)] == [Wrote(id, c.held, w.links)];
  }

  lemma {:induction false} KeptMore(sessions: Sessions, a: seq<Record>, b: seq<Record>)
    ensures Kept(Kept(sessions, a), b) == Kept(sessions, a + b)
  {
    if b == [] {
      assert a + b == a;
    } else {
      KeptMore(sessions, a, b[..|b| - 1]);
      assert (a + b)[..|a + b| - 1] == a + b[..|b| - 1];
    }
  }

  lemma {:induction false} Leaves(sessions: Sessions, records: seq<Record>, id: string, s: State)
    requires records != [] && records[0].Wrote?
    requires forall r <- records :: r.Wrote? ==> r.id == id && r.session.state != s
    ensures id in Kept(sessions, records) && Kept(sessions, records)[id].state != s
  {
    if |records| > 1 {
      Leaves(sessions, records[..|records| - 1], id, s);
    }
    assert records[|records| - 1] in records;
  }

  lemma CarrySheds(left: nat, id: string, mode: Mode, t: Ticket, tw: TransitionWorld)
    ensures forall r <- CarryTrace(left, id, mode, t, tw).records ::
      r.Wrote? ==> r.id == id && r.session.state in {Success(mode), Compensated(mode), Stuck(mode)}
  {
  }

  /** A unit that writes at all leaves the prepared state. */
  lemma UnitLeaves(sessions: Sessions, id: string, mode: Mode, left: nat, t: Ticket, links: Links, tw: TransitionWorld)
    requires left > 0
    ensures var after := Kept(sessions, TransitionTrace(left, id, mode, t, links, tw).records);
      id in after && after[id].state != Expected(mode)
  {
    CarrySheds(left - 1, id, mode, t, tw);
    hide CarryTrace;
    var records := TransitionTrace(left, id, mode, t, links, tw).records;
    Leaves(sessions, records, id, Expected(mode));
  }

  /** A schedule that is reported when the unit has already run. */
  lemma Reports(v: World, f: nat, mode: Mode, left: nat, schedule: Run) returns (events: seq<Event>)
    requires f < |v.flights| && v.flights[f].errand == Preparing(mode) && v.lock.None?
    requires left > 1 ==> v.flights[f].id in v.sessions && v.sessions[v.flights[f].id].state != Expected(mode)
    ensures Own(events, f)
    ensures Played(v, events) ==
      v.(links := schedule.after, flights := v.flights[f := v.flights[f].(errand := Done)])
  {
    var first, last := Goes(f, schedule, true), if left > 1 then Goes(f, schedule, true) else Dies(f);
    events := [first] + [last];
    PlayedFirst(v, first, [last]);
    PlayedOnce(Step(v, first), last);
    var next := v.flights[f].(errand := if Succeeded(schedule) then Done else TakingBack(mode));
    assert Step(v, first) == v.(links := schedule.after, flights := v.flights[f := next]);
    assert v.flights[f := next][f := v.flights[f].(errand := Done)] == v.flights[f := v.flights[f].(errand := Done)];
  }

  /** A preparation whose unit runs before the schedule is reported. */
  lemma PreparationOvertaken(w: World, id: string, mode: Mode, left: nat, schedule: Run, tw: TransitionWorld)
    returns (events: seq<Event>)
    requires w.lock.None? && id in w.sessions && w.sessions[id].state == Withdrawn(mode) && left > 0
    requires w.links == ExpectedLinks(mode, w.sessions[id].ticket)
    ensures Ended(w, Played(Step(w, Asked(id, mode)), events),
      PrepareTrace(left, id, mode, w.sessions[id].ticket, w.links, schedule, Some(tw)))
    ensures forall e <- events :: !e.Moved?
  {
    hide TransitionTrace, Step, Played;
    var u, f, t := Step(w, Asked(id, mode)), |w.flights|, w.sessions[id].ticket;
    var c := IsPrepared(w, id, mode);
    var unit := UnitAlone(u, id, mode, left - 1, tw);
    var done := TransitionTrace(left - 1, id, mode, t, w.links, tw).records;
    PlayedFirst(u, UnitStarts(id, mode), unit);
    var v := Played(u, [UnitStarts(id, mode)] + unit);
    assert v.flights[f] == c;
    KeptMore(w.sessions, [Wrote(id, c.held, w.links)], done);
    if left > 1 {
      UnitLeaves(u.sessions, id, mode, left - 1, t, w.links, tw);
    }
    var last := Reports(v, f, mode, left, schedule);
    PlayedOn(u, [UnitStarts(id, mode)] + unit, last);
    events := [UnitStarts(id, mode)] + unit + last;
  }

  /** One call of the machine, left alone. */
  lemma CallAlone(w: World, left: nat, call: Call) returns (events: seq<Event>)
    requires w.lock.None?
    ensures Ended(w, Played(w, events), CallTrace(left, w.sessions, w.links, call))
    ensures forall e <- events :: e.Moved? ==> call == LinksMoved(e.to)
  {
    if CallTrace(left, w.sessions, w.links, call) == Trace([], w.links) {
      events := [];
    } else {
      match call {
        case Test(id, target, uid, fingerprint, candidate, test) =>
          var t := Ticket(target, uid, fingerprint, candidate, w.links.profile.value);
          var rest := TestAlone(w, id, t, left, test);
          events := Begun(w, TestAsked(id, target, uid, fingerprint, candidate), rest);
        case TimedRecovery(id, recovery) =>
          var rest := RecoveryAlone(w, id, left, recovery);
          events := Begun(w, RecoveryStarts(id), rest);
        case UserRecovery(id, _, _, _, unit, _) =>
          var rest := RecoveryAlone(w, id, left, unit.value);
          events := Begun(w, RecoveryStarts(id), rest);
        case CommitIt(id, _, _, _, _, _, schedule, meanwhile) =>
          var rest := Prepares(w, id, Commit, left, schedule, meanwhile);
          events := Begun(w, Asked(id, Commit), rest);
        case RollItBack(id, _, _, schedule, meanwhile) =>
          var rest := Prepares(w, id, Rollback, left, schedule, meanwhile);
          events := Begun(w, Asked(id, Rollback), rest);
        case Unit(id, mode, transition) =>
          var rest := UnitAlone(w, id, mode, left, transition);
          events := Begun(w, UnitStarts(id, mode), rest);
        case LinksMoved(to) =>
          events := [Moved(to)];
          PlayedOnce(w, Moved(to));
      }
    }
  }

  lemma Begun(w: World, e: Event, rest: seq<Event>) returns (events: seq<Event>)
    requires !e.Moved? && forall r <- rest :: !r.Moved?
    ensures Played(w, events) == Played(Step(w, e), rest) && forall r <- events :: !r.Moved?
  {
    events := [e] + rest;
    PlayedFirst(w, e, rest);
  }

  lemma Prepares(w: World, id: string, mode: Mode, left: nat, schedule: Run, meanwhile: Option<TransitionWorld>)
    returns (events: seq<Event>)
    requires w.lock.None? && id in w.sessions && w.sessions[id].state == Withdrawn(mode) && left > 0
    requires w.links == ExpectedLinks(mode, w.sessions[id].ticket)
    ensures Ended(w, Played(Step(w, Asked(id, mode)), events),
      PrepareTrace(left, id, mode, w.sessions[id].ticket, w.links, schedule, meanwhile))
    ensures forall e <- events :: !e.Moved?
  {
    if meanwhile.Some? {
      events := PreparationOvertaken(w, id, mode, left, schedule, meanwhile.value);
    } else {
      events := PreparationAlone(w, id, mode, left, schedule);
    }
  }

  /** Whatever calls the machine runs one after the other, with the links moved between them, is a story of the
      interleaving model, with the same records and the same links. */
  lemma {:induction false} RunIsStory(links: Links, calls: seq<(nat, Call)>) returns (events: seq<Event>)
    ensures Trace(Story(links, events).log, Story(links, events).links) == RunTrace(Trace([], links), calls)
    ensures var w := Story(links, events);
      w.sessions == Replay(w.log) && w.lock.None? && forall c <- w.flights :: c.errand.Done?
    ensures forall e <- events :: e.Moved? ==> exists c <- calls :: c.1 == LinksMoved(e.to)
  {
    hide CallTrace, Step;
    if calls == [] {
      events := [];
    } else {
      var (left, call) := calls[|calls| - 1];
      var before := RunIsStory(links, calls[..|calls| - 1]);
      var w := Story(links, before);
      var more := CallAlone(w, left, call);
      events := before + more;
      PlayedOn(Beginning(links), before, more);
      forall e | e in events && e.Moved? ensures exists c <- calls :: c.1 == LinksMoved(e.to) {
        if e in before {
          var c :| c in calls[..|calls| - 1] && c.1 == LinksMoved(e.to);
          assert c in calls;
        } else {
          assert calls[|calls| - 1] in calls;
        }
      }
      KeptIsReplayed(w.log, CallTrace(left, w.sessions, w.links, call).records);
    }
  }
}
