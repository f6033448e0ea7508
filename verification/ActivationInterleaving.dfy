/** Calls that overlap. The journal is locked while it is read or written, but most calls let go of it in
    between, and many writes do not look again at what they replace. */
module ActivationInterleaving {
  import opened Basics
  import opened ActivationModel
  import opened Activation
  import opened ActivationHistory

  /** What a call does next. `again` says that it is at its compensation. */
  datatype Errand =
    | Creating(seen: Links)
    | Arming
    | Testing
    | Preparing(mode: Mode)
    | TakingBack(mode: Mode)
    | Approaching(mode: Mode)
    | Entering(mode: Mode)
    | Setting(mode: Mode, again: bool)
    | Switching(mode: Mode, again: bool)
    | Resetting
    | SwitchingBack(permanent: bool)
    | Landing(to: State, seen: Links)
    | Done

  /** A call under way, with the session as it last read or wrote it. */
  datatype Flight = Flight(id: string, held: Session, errand: Errand)

  /** What stands behind a journal write: the state that the writer had read, the links that it had seen,
      and whether it wrote without looking at the journal again. */
  datatype Note = Note(loaded: Option<State>, seen: Links, blind: bool)

  /** A recovery keeps the journal locked from its first write to its last. */
  datatype World = World(links: Links, sessions: Sessions, flights: seq<Flight>, lock: Option<nat>,
    log: seq<Record>, notes: seq<Note>)

  function Beginning(links: Links): World {
    World(links, map[], [], None, [], [])
  }

  function Save(w: World, id: string, s: Session, n: Note): World {
    w.(sessions := w.sessions[id := s], log := w.log + [Wrote(id, s, w.links)], notes := w.notes + [n])
  }

  function Order(w: World, id: string, command: Command, closure: string, run: Run): World {
    w.(links := run.after, log := w.log + [Issued(id, command, closure, Succeeded(run))],
      notes := w.notes + [Note(None, w.links, false)])
  }

  function Put(w: World, f: nat, c: Flight): World
    requires f < |w.flights|
  {
    w.(flights := w.flights[f := c])
  }

  function Begin(w: World, c: Flight): World {
    w.(flights := w.flights + [c])
  }

  function Release(w: World, f: nat): World {
    if w.lock == Some(f) then w.(lock := None) else w
  }

  predicate MustWait(w: World, f: nat) {
    w.lock.Some? && w.lock != Some(f)
  }

  function ClosureOf(mode: Mode, again: bool, t: Ticket): string {
    if again then Compensation(mode, t) else Destination(mode, t)
  }

  function Withdrawn(mode: Mode): State {
    if mode == Commit then Active else State.Committed
  }

  function CreateStep(w: World, f: nat): World
    requires f < |w.flights| && w.flights[f].errand.Creating?
  {
    var c := w.flights[f];
    if c.id in w.sessions || !AllFinished(w.sessions) then Put(w, f, c.(errand := Done))
    else Put(Save(w, c.id, c.held, Note(None, c.errand.seen, false)), f, c.(errand := Arming))
  }

  function ArmStep(w: World, f: nat, run: Run): World
    requires f < |w.flights|
  {
    Put(w.(links := run.after), f, w.flights[f].(errand :=
      if run.Failed? then Done
      else Landing(if run.code == 0 then Activating else State.Recovered, run.after)))
  }

  function TestStep(w: World, f: nat, run: Run): World
    requires f < |w.flights|
  {
    var c := w.flights[f];
    var t := c.held.ticket;
    var end := if Succeeded(run) && run.after.runtime == Some(t.candidate) then Active else ActivationFailed;
    Put(Order(w, c.id, TestSwitch, t.candidate, run), f, c.(errand := Landing(end, run.after)))
  }

  function PrepareStep(w: World, f: nat, run: Run): World
    requires f < |w.flights| && w.flights[f].errand.Preparing?
  {
    var c := w.flights[f];
    Put(w.(links := run.after), f, c.(errand := if Succeeded(run) then Done else TakingBack(c.errand.mode)))
  }

  /** Looks again, and withdraws the preparation only if it is still there. */
  function TakeBackStep(w: World, f: nat): World
    requires f < |w.flights| && w.flights[f].errand.TakingBack?
  {
    var c := w.flights[f];
    var done := Put(w, f, c.(errand := Done));
    if c.id !in w.sessions || w.sessions[c.id].state != Expected(c.errand.mode) then done
    else
      var latest := w.sessions[c.id];
      Save(done, c.id, latest.(state := Withdrawn(c.errand.mode)), Note(Some(latest.state), w.links, false))
  }

  /** The checks of a unit before it looks again; `good` says that closure and tools are usable. */
  function ApproachStep(w: World, f: nat, run: Run, good: bool): World
    requires f < |w.flights| && w.flights[f].errand.Approaching?
  {
    var c := w.flights[f];
    var mode := c.errand.mode;
    if !good || w.links != ExpectedLinks(mode, c.held.ticket) then
      Put(w, f, c.(errand := Landing(Stuck(mode), w.links)))
    else if mode == Rollback then Put(w, f, c.(errand := Entering(mode)))
    else
      Put(w.(links := run.after), f,
        c.(errand := if Succeeded(run) then Entering(mode) else Landing(Stuck(mode), run.after)))
  }

  /** Looks again, and goes on only from the prepared state. */
  function EnterStep(w: World, f: nat): World
    requires f < |w.flights| && w.flights[f].errand.Entering?
  {
    var c := w.flights[f];
    var mode := c.errand.mode;
    if c.id !in w.sessions || w.sessions[c.id].state != Expected(mode) then Put(w, f, c.(errand := Done))
    else
      var running := w.sessions[c.id].(state := Running(mode));
      var saved := Save(w, c.id, running, Note(Some(Expected(mode)), w.links, false));
      Put(saved, f, Flight(c.id, running, Setting(mode, false)))
  }

  function SetStep(w: World, f: nat, run: Run): World
    requires f < |w.flights| && w.flights[f].errand.Setting?
  {
    var c := w.flights[f];
    var (mode, again) := (c.errand.mode, c.errand.again);
    Put(Order(w, c.id, SetProfile, ClosureOf(mode, again, c.held.ticket), run), f, c.(errand :=
      if Succeeded(run) then Switching(mode, again)
      else if !again then Setting(mode, true)
      else Landing(Stuck(mode), run.after)))
  }

  function SwitchStep(w: World, f: nat, run: Run): World
    requires f < |w.flights| && w.flights[f].errand.Switching?
  {
    var c := w.flights[f];
    var (mode, again) := (c.errand.mode, c.errand.again);
    var closure := ClosureOf(mode, again, c.held.ticket);
    Put(Order(w, c.id, PermanentSwitch, closure, run), f, c.(errand :=
      if Succeeded(run) && run.after == Both(closure) then
        Landing(if again then Compensated(mode) else Success(mode), run.after)
      else if !again then Setting(mode, true)
      else Landing(Stuck(mode), run.after)))
  }

  function ResetStep(w: World, f: nat, run: Run, good: bool): World
    requires f < |w.flights|
  {
    var c := w.flights[f];
    var previous := c.held.ticket.previous;
    if w.links.profile in {None, Some(previous)} then Put(w, f, c.(errand := SwitchingBack(false)))
    else if !good then Put(w, f, c.(errand := Landing(RecoveryRequired, w.links)))
    else
      Put(Order(w, c.id, SetProfile, previous, run), f,
        c.(errand := if Succeeded(run) then SwitchingBack(true) else Landing(RecoveryRequired, run.after)))
  }

  function SwitchBackStep(w: World, f: nat, run: Run): World
    requires f < |w.flights| && w.flights[f].errand.SwitchingBack?
  {
    var c := w.flights[f];
    var previous := c.held.ticket.previous;
    var back := Succeeded(run) && run.after.runtime == Some(previous) && run.after.profile in {None, Some(previous)};
    var command := if c.errand.permanent then PermanentSwitch else TestSwitch;
    Put(Order(w, c.id, command, previous, run), f,
      c.(errand := Landing(if back then State.Recovered else RecoveryRequired, run.after)))
  }

  /** Writes what was decided, whatever the journal says by now. */
  function LandStep(w: World, f: nat): World
    requires f < |w.flights| && w.flights[f].errand.Landing?
  {
    var c := w.flights[f];
    var now := c.held.(state := c.errand.to);
    var note := Note(Some(c.held.state), c.errand.seen, w.lock != Some(f));
    var next := if now.state == Activating then Flight(c.id, now, Testing) else c.(errand := Done);
    Release(Put(Save(w, c.id, now, note), f, next), f)
  }

  /** The next step of a call, with what its command comes to. */
  function Advance(w: World, f: nat, run: Run, good: bool): World
    requires f < |w.flights|
  {
    match w.flights[f].errand
    case Creating(_) => if MustWait(w, f) then w else CreateStep(w, f)
    case Arming => ArmStep(w, f, run)
    case Testing => TestStep(w, f, run)
    case Preparing(_) => PrepareStep(w, f, run)
    case TakingBack(_) => if MustWait(w, f) then w else TakeBackStep(w, f)
    case Approaching(_) => ApproachStep(w, f, run, good)
    case Entering(_) => if MustWait(w, f) then w else EnterStep(w, f)
    case Setting(_, _) => SetStep(w, f, run)
    case Switching(_, _) => SwitchStep(w, f, run)
    case Resetting => ResetStep(w, f, run, good)
    case SwitchingBack(_) => SwitchBackStep(w, f, run)
    case Landing(_, _) => if MustWait(w, f) then w else LandStep(w, f)
    case Done => w
  }

  datatype Event =
    | TestAsked(id: string, target: string, uid: nat, fingerprint: string, candidate: string)
    | CommitAsked(id: string)
    | RollbackAsked(id: string)
    | UnitStarts(id: string, mode: Mode)
    | RecoveryStarts(id: string)
    | Goes(f: nat, run: Run, good: bool)
    | Dies(f: nat)
    | Moved(to: Links)

  /** A locked section that checks the state and the links, and prepares a commit or a rollback. */
  function PrepareSection(w: World, id: string, mode: Mode): World {
    if w.lock.Some? || id !in w.sessions || w.sessions[id].state != Withdrawn(mode)
      || w.links != ExpectedLinks(mode, w.sessions[id].ticket) then w
    else
      var prepared := w.sessions[id].(state := Expected(mode));
      Begin(Save(w, id, prepared, Note(Some(Withdrawn(mode)), w.links, false)), Flight(id, prepared, Preparing(mode)))
  }

  /** A recovery locks the journal and writes that it is under way. */
  function RecoverySection(w: World, id: string): World {
    if w.lock.Some? || id !in w.sessions || !Recoverable(w.sessions[id].state) then w
    else
      var recovering := w.sessions[id].(state := Recovering);
      var note := Note(Some(w.sessions[id].state), w.links, false);
      Begin(Save(w, id, recovering, note), Flight(id, recovering, Resetting)).(lock := Some(|w.flights|))
  }

  function Step(w: World, e: Event): World {
    match e
    case TestAsked(id, target, uid, fingerprint, candidate) =>
      if w.links.runtime.None? || w.links.profile.None? then w
      else
        var ticket := Ticket(target, uid, fingerprint, candidate, w.links.profile.value);
        Begin(w, Flight(id, Session(Prepared, ticket), Creating(w.links)))
    case CommitAsked(id) => PrepareSection(w, id, Commit)
    case RollbackAsked(id) => PrepareSection(w, id, Rollback)
    case UnitStarts(id, mode) =>
      if w.lock.Some? || id !in w.sessions || w.sessions[id].state != Expected(mode) then w
      else Begin(w, Flight(id, w.sessions[id], Approaching(mode)))
    case RecoveryStarts(id) => RecoverySection(w, id)
    case Goes(f, run, good) => if f < |w.flights| then Advance(w, f, run, good) else w
    case Dies(f) => if f < |w.flights| then Release(Put(w, f, w.flights[f].(errand := Done)), f) else w
    case Moved(to) => w.(links := to)
  }

  function Played(w: World, events: seq<Event>): World {
    if events == [] then w else Step(Played(w, events[..|events| - 1]), events[|events| - 1])
  }

  // --- what every write keeps to

  /** The states that a call may have read before a write that does not look again. */
  predicate Unguarded(s: State) {
    s in {Prepared, Activating, CommitPrepared, Committing, RollbackPrepared, RollingBack}
  }

  /** A write follows from what its writer had read and seen; and only these writers may have been
      overtaken. A command is one of its session. */
  predicate Fair(sessions: Sessions, r: Record, n: Note) {
    match r
    case Wrote(id, s, _) =>
      if id in sessions then
        && n.loaded.Some? && s.ticket == sessions[id].ticket && MayMove(s.ticket, n.loaded.value, s.state, n.seen)
        && (if n.blind then Unguarded(n.loaded.value) else n.loaded == Some(sessions[id].state))
      else
        && n.loaded.None? && !n.blind && s.state == Prepared && AllFinished(sessions)
        && n.seen.runtime.Some? && n.seen.profile == Some(s.ticket.previous)
    case Issued(id, _, closure, _) =>
      id in sessions && closure in {sessions[id].ticket.candidate, sessions[id].ticket.previous}
  }

  ghost predicate FairLog(log: seq<Record>, notes: seq<Note>) {
    && |log| == |notes|
    && (log != [] ==>
         var n := |log| - 1;
         FairLog(log[..n], notes[..n]) && Fair(Replay(log[..n]), log[n], notes[n]))
  }

  lemma FairNext(log: seq<Record>, notes: seq<Note>, r: Record, n: Note)
    requires FairLog(log, notes) && Fair(Replay(log), r, n)
    ensures FairLog(log + [r], notes + [n]) && Replay(log + [r]) == After(Replay(log), r)
  {
    assert (log + [r])[..|log|] == log && (notes + [n])[..|log|] == notes;
  }

  lemma {:induction false} FairAt(log: seq<Record>, notes: seq<Note>, k: nat)
    requires FairLog(log, notes) && k < |log|
    ensures Fair(Replay(log[..k]), log[k], notes[k])
    decreases |log|
  {
    var n := |log| - 1;
    if k < n {
      FairAt(log[..n], notes[..n], k);
      assert log[..n][..k] == log[..k];
    }
  }

  /** What a call under way may rely on. */
  predicate Fits(c: Flight, sessions: Sessions) {
    match c.errand
    case Creating(seen) =>
      c.held.state == Prepared && seen.runtime.Some? && seen.profile == Some(c.held.ticket.previous)
    case Done => true
    case errand =>
      && c.id in sessions && sessions[c.id].ticket == c.held.ticket
      && match errand
         case Arming => c.held.state == Prepared
         case Testing => c.held.state == Activating
         case Approaching(mode) => c.held.state == Expected(mode)
         case Entering(mode) => c.held.state == Expected(mode)
         case Setting(mode, _) => c.held.state == Running(mode)
         case Switching(mode, _) => c.held.state == Running(mode)
         case Resetting => c.held.state == Recovering
         case SwitchingBack(_) => c.held.state == Recovering
         case Landing(to, seen) =>
           && MayMove(c.held.ticket, c.held.state, to, seen)
           && (Unguarded(c.held.state) || c.held.state == Recovering)
         case _ => !c.held.state.Recovering?
  }

  /** The call holds a session that nobody else has touched since it wrote it. */
  predicate Keeps(c: Flight, sessions: Sessions) {
    !c.errand.Done? && c.held.state == Recovering && c.id in sessions && sessions[c.id] == c.held
  }

  /** Who recovers a session holds the lock, and who holds the lock recovers a session. */
  ghost predicate LockFits(w: World) {
    && (w.lock.Some? ==> w.lock.value < |w.flights| && Keeps(w.flights[w.lock.value], w.sessions))
    && (forall f :: 0 <= f < |w.flights| && !w.flights[f].errand.Done? && w.flights[f].held.state == Recovering ==>
          w.lock == Some(f))
  }

  ghost predicate LogFits(w: World) {
    FairLog(w.log, w.notes) && w.sessions == Replay(w.log)
  }

  ghost predicate FlightsFit(flights: seq<Flight>, sessions: Sessions) {
    forall f :: 0 <= f < |flights| ==> Fits(flights[f], sessions)
  }

  ghost predicate Sound(w: World) {
    LogFits(w) && FlightsFit(w.flights, w.sessions) && LockFits(w)
  }

  lemma SaveKeeps(w: World, id: string, s: Session, n: Note)
    requires LogFits(w) && FlightsFit(w.flights, w.sessions) && Fair(w.sessions, Wrote(id, s, w.links), n)
    ensures var next := Save(w, id, s, n);
      LogFits(next) && FlightsFit(next.flights, next.sessions)
  {
    FairNext(w.log, w.notes, Wrote(id, s, w.links), n);
  }

  /** A write in a section of its own, while nobody holds the lock. */
  lemma SaveIsSound(w: World, id: string, s: Session, n: Note)
    requires Sound(w) && w.lock.None? && Fair(w.sessions, Wrote(id, s, w.links), n)
    ensures Sound(Save(w, id, s, n))
  {
    SaveKeeps(w, id, s, n);
  }

  lemma OrderKeeps(w: World, id: string, command: Command, closure: string, run: Run)
    requires LogFits(w)
    requires id in w.sessions && closure in {w.sessions[id].ticket.candidate, w.sessions[id].ticket.previous}
    ensures LogFits(Order(w, id, command, closure, run))
  {
    FairNext(w.log, w.notes, Issued(id, command, closure, Succeeded(run)), Note(None, w.links, false));
  }

  lemma MovedKeeps(w: World, to: Links)
    requires Sound(w)
    ensures Sound(w.(links := to))
  {
  }

  /** A call goes on to its next errand, with the same session. */
  lemma PutKeeps(w: World, f: nat, c: Flight)
    requires Sound(w) && f < |w.flights| && !w.flights[f].errand.Done? && Fits(c, w.sessions)
    requires c.id == w.flights[f].id && c.held == w.flights[f].held
    requires c.errand.Done? ==> c.held.state != Recovering
    ensures Sound(Put(w, f, c))
  {
  }

  lemma FitsAt(w: World, f: nat)
    requires Sound(w) && f < |w.flights|
    ensures Fits(w.flights[f], w.sessions)
  {
  }

  lemma OrderIsSound(w: World, f: nat, command: Command, closure: string, run: Run)
    requires Sound(w) && f < |w.flights|
    requires !w.flights[f].errand.Done? && !w.flights[f].errand.Creating?
    requires closure in {w.flights[f].held.ticket.candidate, w.flights[f].held.ticket.previous}
    ensures Sound(Order(w, w.flights[f].id, command, closure, run))
  {
    OrderKeeps(w, w.flights[f].id, command, closure, run);
  }

  lemma CreateKeeps(w: World, f: nat)
    requires Sound(w) && f < |w.flights| && w.flights[f].errand.Creating? && !MustWait(w, f)
    ensures Sound(CreateStep(w, f))
  {
    var c := w.flights[f];
    if c.id !in w.sessions && AllFinished(w.sessions) {
      SaveKeeps(w, c.id, c.held, Note(None, c.errand.seen, false));
    }
  }

  lemma ArmKeeps(w: World, f: nat, run: Run)
    requires Sound(w) && f < |w.flights| && w.flights[f].errand.Arming?
    ensures Sound(ArmStep(w, f, run))
  {
    hide Sound;
    FitsAt(w, f);
    MovedKeeps(w, run.after);
    PutKeeps(w.(links := run.after), f, ArmStep(w, f, run).flights[f]);
  }

  lemma PrepareKeeps(w: World, f: nat, run: Run)
    requires Sound(w) && f < |w.flights| && w.flights[f].errand.Preparing?
    ensures Sound(PrepareStep(w, f, run))
  {
    hide Sound;
    FitsAt(w, f);
    MovedKeeps(w, run.after);
    PutKeeps(w.(links := run.after), f, PrepareStep(w, f, run).flights[f]);
  }

  lemma TestKeeps(w: World, f: nat, run: Run)
    requires Sound(w) && f < |w.flights| && w.flights[f].errand.Testing?
    ensures Sound(TestStep(w, f, run))
  {
    hide Sound;
    FitsAt(w, f);
    var c := w.flights[f];
    OrderIsSound(w, f, TestSwitch, c.held.ticket.candidate, run);
    var ordered := Order(w, c.id, TestSwitch, c.held.ticket.candidate, run);
    PutKeeps(ordered, f, TestStep(w, f, run).flights[f]);
  }

  lemma TakeBackKeeps(w: World, f: nat)
    requires Sound(w) && f < |w.flights| && w.flights[f].errand.TakingBack? && !MustWait(w, f)
    ensures Sound(TakeBackStep(w, f))
  {
    var c := w.flights[f];
    if c.id in w.sessions && w.sessions[c.id].state == Expected(c.errand.mode) {
      var latest := w.sessions[c.id];
      var done := Put(w, f, c.(errand := Done));
      SaveKeeps(done, c.id, latest.(state := Withdrawn(c.errand.mode)), Note(Some(latest.state), w.links, false));
    }
  }

  lemma ApproachKeeps(w: World, f: nat, run: Run, good: bool)
    requires Sound(w) && f < |w.flights| && w.flights[f].errand.Approaching?
    ensures Sound(ApproachStep(w, f, run, good))
  {
    hide Sound;
    FitsAt(w, f);
    var next := ApproachStep(w, f, run, good);
    MovedKeeps(w, next.links);
    PutKeeps(w.(links := next.links), f, next.flights[f]);
  }

  lemma EnterKeeps(w: World, f: nat)
    requires Sound(w) && f < |w.flights| && w.flights[f].errand.Entering? && !MustWait(w, f)
    ensures Sound(EnterStep(w, f))
  {
    var c := w.flights[f];
    var mode := c.errand.mode;
    if c.id in w.sessions && w.sessions[c.id].state == Expected(mode) {
      SaveKeeps(w, c.id, w.sessions[c.id].(state := Running(mode)), Note(Some(Expected(mode)), w.links, false));
    }
  }

  lemma SetKeeps(w: World, f: nat, run: Run)
    requires Sound(w) && f < |w.flights| && w.flights[f].errand.Setting?
    ensures Sound(SetStep(w, f, run))
  {
    hide Sound;
    FitsAt(w, f);
    var c := w.flights[f];
    var closure := ClosureOf(c.errand.mode, c.errand.again, c.held.ticket);
    OrderIsSound(w, f, SetProfile, closure, run);
    PutKeeps(Order(w, c.id, SetProfile, closure, run), f, SetStep(w, f, run).flights[f]);
  }

  lemma SwitchKeeps(w: World, f: nat, run: Run)
    requires Sound(w) && f < |w.flights| && w.flights[f].errand.Switching?
    ensures Sound(SwitchStep(w, f, run))
  {
    hide Sound;
    FitsAt(w, f);
    var c := w.flights[f];
    var closure := ClosureOf(c.errand.mode, c.errand.again, c.held.ticket);
    OrderIsSound(w, f, PermanentSwitch, closure, run);
    PutKeeps(Order(w, c.id, PermanentSwitch, closure, run), f, SwitchStep(w, f, run).flights[f]);
  }

  lemma ResetKeeps(w: World, f: nat, run: Run, good: bool)
    requires Sound(w) && f < |w.flights| && w.flights[f].errand.Resetting?
    ensures Sound(ResetStep(w, f, run, good))
  {
    hide Sound;
    FitsAt(w, f);
    var c := w.flights[f];
    var next := ResetStep(w, f, run, good);
    if next.log == w.log {
      PutKeeps(w, f, next.flights[f]);
    } else {
      OrderIsSound(w, f, SetProfile, c.held.ticket.previous, run);
      PutKeeps(Order(w, c.id, SetProfile, c.held.ticket.previous, run), f, next.flights[f]);
    }
  }

  lemma SwitchBackKeeps(w: World, f: nat, run: Run)
    requires Sound(w) && f < |w.flights| && w.flights[f].errand.SwitchingBack?
    ensures Sound(SwitchBackStep(w, f, run))
  {
    hide Sound;
    FitsAt(w, f);
    var c := w.flights[f];
    var command := if c.errand.permanent then PermanentSwitch else TestSwitch;
    OrderIsSound(w, f, command, c.held.ticket.previous, run);
    PutKeeps(Order(w, c.id, command, c.held.ticket.previous, run), f, SwitchBackStep(w, f, run).flights[f]);
  }

  lemma LandKeeps(w: World, f: nat)
    requires Sound(w) && f < |w.flights| && w.flights[f].errand.Landing? && !MustWait(w, f)
    ensures Sound(LandStep(w, f))
  {
    var c := w.flights[f];
    SaveKeeps(w, c.id, c.held.(state := c.errand.to), Note(Some(c.held.state), c.errand.seen, w.lock != Some(f)));
  }

  lemma AdvanceKeeps(w: World, f: nat, run: Run, good: bool)
    requires Sound(w) && f < |w.flights|
    ensures Sound(Advance(w, f, run, good))
  {
    hide Sound, Fits;
    match w.flights[f].errand {
      case Creating(_) => if !MustWait(w, f) { CreateKeeps(w, f); }
      case Arming => ArmKeeps(w, f, run);
      case Testing => TestKeeps(w, f, run);
      case Preparing(_) => PrepareKeeps(w, f, run);
      case TakingBack(_) => if !MustWait(w, f) { TakeBackKeeps(w, f); }
      case Approaching(_) => ApproachKeeps(w, f, run, good);
      case Entering(_) => if !MustWait(w, f) { EnterKeeps(w, f); }
      case Setting(_, _) => SetKeeps(w, f, run);
      case Switching(_, _) => SwitchKeeps(w, f, run);
      case Resetting => ResetKeeps(w, f, run, good);
      case SwitchingBack(_) => SwitchBackKeeps(w, f, run);
      case Landing(_, _) => if !MustWait(w, f) { LandKeeps(w, f); }
      case Done =>
    }
  }

  lemma BeginKeeps(w: World, c: Flight)
    requires Sound(w) && Fits(c, w.sessions) && c.held.state != Recovering
    ensures Sound(Begin(w, c))
  {
  }

  lemma PrepareSectionKeeps(w: World, id: string, mode: Mode)
    requires Sound(w)
    ensures Sound(PrepareSection(w, id, mode))
  {
    hide Sound;
    if w.lock.None? && id in w.sessions && w.sessions[id].state == Withdrawn(mode)
      && w.links == ExpectedLinks(mode, w.sessions[id].ticket) {
      var prepared := w.sessions[id].(state := Expected(mode));
      var note := Note(Some(Withdrawn(mode)), w.links, false);
      SaveIsSound(w, id, prepared, note);
      BeginKeeps(Save(w, id, prepared, note), Flight(id, prepared, Preparing(mode)));
    }
  }

  lemma LockTaken(w: World, c: Flight)
    requires LogFits(w) && FlightsFit(w.flights, w.sessions) && w.lock.None?
    requires forall f :: 0 <= f < |w.flights| && !w.flights[f].errand.Done? ==> w.flights[f].held.state != Recovering
    requires Keeps(c, w.sessions) && Fits(c, w.sessions)
    ensures Sound(Begin(w, c).(lock := Some(|w.flights|)))
  {
  }

  lemma RecoverySectionKeeps(w: World, id: string)
    requires Sound(w)
    ensures Sound(RecoverySection(w, id))
  {
    if w.lock.None? && id in w.sessions && Recoverable(w.sessions[id].state) {
      var note := Note(Some(w.sessions[id].state), w.links, false);
      var recovering := w.sessions[id].(state := Recovering);
      SaveKeeps(w, id, recovering, note);
      LockTaken(Save(w, id, recovering, note), Flight(id, recovering, Resetting));
    }
  }

  lemma DieKeeps(w: World, f: nat)
    requires Sound(w) && f < |w.flights|
    ensures Sound(Release(Put(w, f, w.flights[f].(errand := Done)), f))
  {
  }

  lemma StepKeeps(w: World, e: Event)
    requires Sound(w)
    ensures Sound(Step(w, e))
  {
    hide Sound, Advance, PrepareSection, RecoverySection;
    match e {
      case TestAsked(id, target, uid, fingerprint, candidate) =>
        if w.links.runtime.Some? && w.links.profile.Some? {
          var ticket := Ticket(target, uid, fingerprint, candidate, w.links.profile.value);
          BeginKeeps(w, Flight(id, Session(Prepared, ticket), Creating(w.links)));
        }
      case CommitAsked(id) => PrepareSectionKeeps(w, id, Commit);
      case RollbackAsked(id) => PrepareSectionKeeps(w, id, Rollback);
      case UnitStarts(id, mode) =>
        if w.lock.None? && id in w.sessions && w.sessions[id].state == Expected(mode) {
          BeginKeeps(w, Flight(id, w.sessions[id], Approaching(mode)));
        }
      case RecoveryStarts(id) => RecoverySectionKeeps(w, id);
      case Goes(f, run, good) => if f < |w.flights| { AdvanceKeeps(w, f, run, good); }
      case Dies(f) => if f < |w.flights| { DieKeeps(w, f); }
      case Moved(to) => MovedKeeps(w, to);
    }
  }

  /** Any calls, overlapping in any way, each dying at any point. */
  lemma {:induction false} RunKeeps(w: World, events: seq<Event>)
    requires Sound(w)
    ensures Sound(Played(w, events))
    decreases |events|
  {
    if events != [] {
      RunKeeps(w, events[..|events| - 1]);
      StepKeeps(Played(w, events[..|events| - 1]), events[|events| - 1]);
    }
  }

  // --- what survives, and what it takes

  /** Everything that can happen to a machine without sessions. */
  function Story(links: Links, events: seq<Event>): World {
    Played(Beginning(links), events)
  }

  lemma StoryIsSound(links: Links, events: seq<Event>)
    ensures Sound(Story(links, events))
  {
    RunKeeps(Beginning(links), events);
  }

  lemma NeverFailed(w: World, k: nat)
    requires Sound(w) && k < |w.log|
    ensures |w.notes| == |w.log| && Fair(Replay(w.log[..k]), w.log[k], w.notes[k])
    ensures w.log[k].Wrote? ==> w.log[k].session.state != CommitFailed
  {
    FairAt(w.log, w.notes, k);
  }

  lemma {:induction false} NotFailed(w: World, n: nat, id: string)
    requires Sound(w) && n <= |w.log| && id in Replay(w.log[..n])
    ensures Replay(w.log[..n])[id].state != CommitFailed
    decreases n
  {
    assert Replay(w.log[..0]) == map[];
    hide Sound, MayMove, Replay;
    if n > 0 {
      NeverFailed(w, n - 1);
      ReplayOne(w.log, n - 1);
      if id in Replay(w.log[..n - 1]) {
        NotFailed(w, n - 1, id);
      }
    }
  }

  lemma {:induction false} StaysThere(w: World, i: nat, j: nat, id: string)
    requires Sound(w) && i <= j <= |w.log| && id in Replay(w.log[..i])
    ensures id in Replay(w.log[..j]) && Replay(w.log[..j])[id].ticket == Replay(w.log[..i])[id].ticket
    decreases j
  {
    hide Sound, MayMove, Replay;
    if i < j {
      StaysThere(w, i, j - 1, id);
      NeverFailed(w, j - 1);
      ReplayOne(w.log, j - 1);
    }
  }

  /** However calls overlap, no session disappears, none changes what it is about, and the state
      `commit-failed` is never written. */
  lemma AlwaysKept(links: Links, events: seq<Event>, i: nat, j: nat, id: string)
    requires var log := Story(links, events).log; i <= j <= |log| && id in Replay(log[..i])
    ensures var log := Story(links, events).log;
      && id in Replay(log[..j]) && Replay(log[..j])[id].ticket == Replay(log[..i])[id].ticket
      && Replay(log[..j])[id].state != CommitFailed
  {
    StoryIsSound(links, events);
    StaysThere(Story(links, events), i, j, id);
    NotFailed(Story(links, events), j, id);
  }

  /** This write was made without looking at the journal again. */
  predicate Blind(w: World, k: nat) {
    k < |w.log| && k < |w.notes| && w.log[k].Wrote? && w.notes[k].blind
  }

  lemma FairStep(links: Links, events: seq<Event>, k: nat)
    requires k < |Story(links, events).log|
    ensures var w := Story(links, events);
      && |w.notes| == |w.log| && Fair(Replay(w.log[..k]), w.log[k], w.notes[k])
      && (Blind(w, k) ==> w.log[k].id in Replay(w.log[..k]))
      && (w.log[k].Wrote? && w.log[k].id in Replay(w.log[..k]) ==>
           Replay(w.log[..k])[w.log[k].id].state != CommitFailed)
  {
    var w := Story(links, events);
    StoryIsSound(links, events);
    FairAt(w.log, w.notes, k);
    if w.log[k].Wrote? && w.log[k].id in Replay(w.log[..k]) {
      AlwaysKept(links, events, k, k, w.log[k].id);
    }
  }

  /** What the journal says of a session just before its k-th record. */
  function Found(w: World, k: nat): Option<State>
    requires k < |w.log|
  {
    var sessions := Replay(w.log[..k]);
    if w.log[k].id in sessions then Some(sessions[w.log[k].id].state) else None
  }

  /** A look at the journal would let this write pass: an ended session stays as it is, and only a session
      in the test phase is written back to it. */
  predicate InTime(found: State, to: State) {
    if Final(found) then to == found else InTestPhase(to) ==> InTestPhase(found)
  }

  /** The write did not look at the journal again, and would not have passed that look. */
  predicate Late(w: World, k: nat) {
    Blind(w, k) && !(Found(w, k).Some? && InTime(Found(w, k).value, w.log[k].session.state))
  }

  lemma MovesOnExactly(sessions: Sessions, r: Record, n: Note)
    requires Fair(sessions, r, n) && (r.Wrote? && r.id in sessions ==> sessions[r.id].state != CommitFailed)
    ensures MovesOn(sessions, r) <==>
      (r.Wrote? && n.blind ==> InTime(sessions[r.id].state, r.session.state))
  {
  }

  /** No session ever comes back from its end, or to the test phase, exactly when no write is late. */
  lemma OnwardExactly(links: Links, events: seq<Event>)
    ensures var w := Story(links, events);
      Tidy(w.log) <==> forall k :: 0 <= k < |w.log| ==> !Late(w, k)
  {
    var w := Story(links, events);
    forall k | 0 <= k < |w.log| ensures MovesOn(Replay(w.log[..k]), w.log[k]) <==> !Late(w, k) {
      FairStep(links, events, k);
      MovesOnExactly(Replay(w.log[..k]), w.log[k], w.notes[k]);
    }
  }

  // --- the overlaps behind such writes

  /** The call may still write its session without looking again, or go on to such a write. */
  predicate Working(c: Flight) {
    !(c.errand.Creating? || c.errand.Done? || c.errand.Preparing? || c.errand.TakingBack?)
  }

  predicate Busy(w: World, id: string) {
    exists f :: 0 <= f < |w.flights| && Working(w.flights[f]) && w.flights[f].id == id
  }

  /** A recovery, asked for or by the timer, or a unit begins on the session while another call is at work
      on it. */
  predicate Overtakes(w: World, e: Event, id: string) {
    && (e.RecoveryStarts? || e.UnitStarts?) && e.id == id
    && |Step(w, e).flights| > |w.flights| && Busy(w, id)
  }

  /** What a call at work finds of its session: what it read, or the preparation taken back. */
  predicate StillThere(read: State, now: State) {
    match read
    case CommitPrepared => now in {CommitPrepared, Active}
    case RollbackPrepared => now in {RollbackPrepared, State.Committed}
    case _ => now == read
  }

  /** At most one call is at work on the session, and finds it. */
  ghost predicate Undivided(w: World, id: string) {
    && (forall f, g :: 0 <= f < g < |w.flights| && w.flights[f].id == id && w.flights[g].id == id ==>
         !(Working(w.flights[f]) && Working(w.flights[g])))
    && (forall f :: 0 <= f < |w.flights| && w.flights[f].id == id && Working(w.flights[f]) ==>
         id in w.sessions && StillThere(w.flights[f].held.state, w.sessions[id].state))
  }

  /** One call takes a step, and the sessions stay. */
  predicate GoesOn(w: World, next: World, f: nat) {
    && f < |w.flights| && next.sessions == w.sessions && |next.flights| == |w.flights|
    && next.flights[f].id == w.flights[f].id
    && (Working(next.flights[f]) ==> Working(w.flights[f]) && next.flights[f].held == w.flights[f].held)
    && forall g :: 0 <= g < |w.flights| && g != f ==> next.flights[g] == w.flights[g]
  }

  lemma GoesOnUndivided(w: World, next: World, f: nat, id: string)
    requires Undivided(w, id) && GoesOn(w, next, f)
    ensures Undivided(next, id)
  {
  }

  predicate TakenBack(was: State, now: State) {
    (was == CommitPrepared && now == Active) || (was == RollbackPrepared && now == State.Committed)
  }

  /** One call writes its session: as the one at work on it, as the first of all, or to take a preparation
      back. */
  predicate Writes(w: World, next: World, f: nat) {
    && f < |w.flights| && |next.flights| == |w.flights|
    && next.flights[f].id == w.flights[f].id
    && (forall g :: 0 <= g < |w.flights| && g != f ==> next.flights[g] == w.flights[g])
    && var id := w.flights[f].id;
       id in next.sessions && next.sessions == w.sessions[id := next.sessions[id]]
       && (Working(next.flights[f]) ==> next.flights[f].held == next.sessions[id])
       && (|| Working(w.flights[f]) || id !in w.sessions
           || (!Working(next.flights[f]) && TakenBack(w.sessions[id].state, next.sessions[id].state)))
  }

  lemma WritesUndivided(w: World, next: World, f: nat, id: string)
    requires Undivided(w, id) && Writes(w, next, f)
    ensures Undivided(next, id)
  {
  }

  predicate Moves(w: World, next: World, f: nat) {
    next == w || GoesOn(w, next, f) || Writes(w, next, f)
  }

  lemma WriterMoves(w: World, f: nat, run: Run, good: bool)
    requires f < |w.flights| && (w.flights[f].errand.Creating? || w.flights[f].errand.TakingBack?
      || w.flights[f].errand.Entering? || w.flights[f].errand.Landing?)
    ensures Moves(w, Advance(w, f, run, good), f)
  {
    hide AllFinished;
  }

  lemma PutGoesOn(w: World, v: World, f: nat, errand: Errand)
    requires f < |w.flights| && (Working(w.flights[f].(errand := errand)) ==> Working(w.flights[f]))
    requires v.flights == w.flights && v.sessions == w.sessions
    ensures Moves(w, Put(v, f, w.flights[f].(errand := errand)), f)
  {
  }

  lemma WorkerMoves(w: World, f: nat, run: Run, good: bool)
    requires f < |w.flights| && !(w.flights[f].errand.Creating? || w.flights[f].errand.TakingBack?
      || w.flights[f].errand.Entering? || w.flights[f].errand.Landing?)
    ensures Moves(w, Advance(w, f, run, good), f)
  {
    hide Succeeded, ExpectedLinks, ClosureOf, Both, Moves;
    var next := Advance(w, f, run, good);
    if w.flights[f].errand.Done? {
      PutGoesOn(w, w, f, Done);
      assert Put(w, f, w.flights[f]) == w;
    } else {
      PutGoesOn(w, next.(flights := w.flights), f, next.flights[f].errand);
    }
  }

  lemma AdvanceUndivided(w: World, f: nat, run: Run, good: bool, id: string)
    requires Undivided(w, id) && f < |w.flights|
    ensures Undivided(Advance(w, f, run, good), id)
  {
    hide Advance, Undivided, GoesOn, Writes;
    var next := Advance(w, f, run, good);
    match w.flights[f].errand {
      case Creating(_) => WriterMoves(w, f, run, good);
      case TakingBack(_) => WriterMoves(w, f, run, good);
      case Entering(_) => WriterMoves(w, f, run, good);
      case Landing(_, _) => WriterMoves(w, f, run, good);
      case _ => WorkerMoves(w, f, run, good);
    }
    if GoesOn(w, next, f) {
      GoesOnUndivided(w, next, f, id);
    } else if Writes(w, next, f) {
      WritesUndivided(w, next, f, id);
    }
  }

  lemma PrepareUndivided(w: World, asked: string, mode: Mode, id: string)
    requires Undivided(w, id) && FlightsFit(w.flights, w.sessions)
    ensures Undivided(PrepareSection(w, asked, mode), id)
  {
    hide ExpectedLinks, MayMove;
  }

  /** As long as nothing overtakes a call at work on the session, at most one call is. */
  lemma StepUndivided(w: World, e: Event, id: string)
    requires Undivided(w, id) && FlightsFit(w.flights, w.sessions) && !Overtakes(w, e, id)
    ensures Undivided(Step(w, e), id)
  {
    hide Advance, ExpectedLinks, PrepareSection, FlightsFit;
    var next := Step(w, e);
    match e {
      case Goes(f, run, good) => if f < |w.flights| { AdvanceUndivided(w, f, run, good, id); }
      case Dies(f) => if f < |w.flights| { GoesOnUndivided(w, next, f, id); }
      case CommitAsked(asked) => PrepareUndivided(w, asked, Commit, id);
      case RollbackAsked(asked) => PrepareUndivided(w, asked, Rollback, id);
      case _ =>
    }
  }

  /** At most one record is added, and only a landing adds one that was written without looking again. */
  predicate Extends(w: World, next: World, landed: Option<string>) {
    && |w.log| <= |next.log| <= |w.log| + 1 && next.log[..|w.log|] == w.log
    && |next.notes| == |next.log| && next.notes[..|w.log|] == w.notes
    && (|w.log| < |next.log| && next.notes[|w.log|].blind ==> landed == Some(next.log[|w.log|].id))
  }

  function Landed(w: World, e: Event): Option<string> {
    if e.Goes? && e.f < |w.flights| && w.flights[e.f].errand.Landing? then Some(w.flights[e.f].id) else None
  }

  lemma Extended(w: World, next: World, landed: Option<string>, r: Record, n: Note)
    requires |w.notes| == |w.log|
    requires (next.log == w.log && next.notes == w.notes) || (next.log == w.log + [r] && next.notes == w.notes + [n])
    requires n.blind ==> landed == Some(r.id)
    ensures Extends(w, next, landed)
  {
  }

  lemma WorkerExtends(w: World, f: nat, run: Run, good: bool)
    requires |w.notes| == |w.log| && f < |w.flights|
    requires w.flights[f].errand.Setting? || w.flights[f].errand.Switching? || w.flights[f].errand.Resetting?
      || w.flights[f].errand.SwitchingBack? || w.flights[f].errand.Testing?
    ensures Extends(w, Advance(w, f, run, good), None)
  {
    hide Succeeded, ExpectedLinks, ClosureOf, Both, Extends;
    var next := Advance(w, f, run, good);
    if next.log == w.log {
      Extended(w, next, None, Issued("", SetProfile, "", false), Note(None, w.links, false));
    } else {
      Extended(w, next, None, next.log[|w.log|], Note(None, w.links, false));
    }
  }

  lemma AdvanceExtends(w: World, f: nat, run: Run, good: bool)
    requires |w.notes| == |w.log| && f < |w.flights|
    ensures Extends(w, Advance(w, f, run, good), Landed(w, Goes(f, run, good)))
  {
    hide Succeeded, ExpectedLinks, AllFinished, SetStep, SwitchStep, ResetStep, SwitchBackStep, TestStep;
    match w.flights[f].errand {
      case Testing => WorkerExtends(w, f, run, good);
      case Setting(_, _) => WorkerExtends(w, f, run, good);
      case Switching(_, _) => WorkerExtends(w, f, run, good);
      case Resetting => WorkerExtends(w, f, run, good);
      case SwitchingBack(_) => WorkerExtends(w, f, run, good);
      case _ =>
    }
  }

  lemma StepExtends(w: World, e: Event)
    requires |w.notes| == |w.log|
    ensures Extends(w, Step(w, e), Landed(w, e))
  {
    hide Advance, ExpectedLinks;
    if e.Goes? && e.f < |w.flights| {
      AdvanceExtends(w, e.f, e.run, e.good);
    }
  }

  /** The only call at work on a session writes it in time. */
  lemma LandsInTime(w: World, f: nat, run: Run, good: bool)
    requires Sound(w) && f < |w.flights| && w.flights[f].errand.Landing? && Undivided(w, w.flights[f].id)
    ensures var next := Advance(w, f, run, good);
      |w.log| < |next.log| ==>
        && Found(next, |w.log|).Some? && next.log[|w.log|].Wrote?
        && InTime(Found(next, |w.log|).value, next.log[|w.log|].session.state)
  {
    FitsAt(w, f);
    assert LandStep(w, f).log[..|w.log|] == w.log;
  }

  lemma LengthsMatch(w: World)
    requires Sound(w)
    ensures |w.notes| == |w.log|
  {
  }

  lemma {:induction false} StoryGrows(links: Links, events: seq<Event>, n: nat)
    requires n <= |events|
    ensures |Story(links, events[..n]).log| <= |Story(links, events).log|
    decreases |events|
  {
    if n < |events| {
      var m := |events| - 1;
      StoryGrows(links, events[..m], n);
      assert events[..m][..n] == events[..n];
      StoryIsSound(links, events[..m]);
      StepExtends(Story(links, events[..m]), events[m]);
    } else {
      assert events[..n] == events;
    }
  }

  lemma {:induction false} UndividedUntil(links: Links, events: seq<Event>, id: string)
    requires forall n :: 0 <= n < |events| ==> !Overtakes(Story(links, events[..n]), events[n], id)
    ensures Undivided(Story(links, events), id)
    decreases |events|
  {
    if events != [] {
      var m := |events| - 1;
      forall n | 0 <= n < m
        ensures !Overtakes(Story(links, events[..m][..n]), events[..m][n], id) {
        assert events[..m][..n] == events[..n];
      }
      UndividedUntil(links, events[..m], id);
      StoryIsSound(links, events[..m]);
      StepUndivided(Story(links, events[..m]), events[m], id);
    }
  }

  lemma StillLate(w: World, e: Event, k: nat)
    requires Sound(w) && k < |w.log|
    ensures Late(Step(w, e), k) <==> Late(w, k)
    ensures |w.log| <= |Step(w, e).log| && Step(w, e).log[k] == w.log[k]
  {
    hide Step;
    var next := Step(w, e);
    StepExtends(w, e);
    assert next.log[k] == next.log[..|w.log|][k] && next.notes[k] == next.notes[..|w.log|][k];
    assert next.log[..k] == next.log[..|w.log|][..k];
  }

  /** The last write is late only where more than one call was at work. */
  lemma LastInTime(w: World, e: Event, k: nat)
    requires Sound(w) && |w.notes| == |w.log| <= k && Late(Step(w, e), k)
    ensures k == |w.log| && !Undivided(w, Step(w, e).log[k].id)
  {
    hide Sound, Undivided, Advance, InTime, PrepareSection, RecoverySection;
    StepExtends(w, e);
    if e.Goes? && e.f < |w.flights| && Undivided(w, Step(w, e).log[k].id) {
      LandsInTime(w, e.f, e.run, e.good);
    }
  }

  /** Behind every late write stands a recovery or a unit that, before the write, began on that session while
      another call was at work on it. */
  lemma {:induction false} OvertakenBefore(links: Links, events: seq<Event>, k: nat) returns (n: nat)
    requires Late(Story(links, events), k)
    ensures n < |events| && Overtakes(Story(links, events[..n]), events[n], Story(links, events).log[k].id)
    ensures |Story(links, events[..n]).log| <= k
    decreases |events|
  {
    hide Sound, Overtakes, Undivided, Step, InTime, MayMove, Extends;
    var m := |events| - 1;
    var before, w := Story(links, events[..m]), Story(links, events);
    StoryIsSound(links, events[..m]);
    if k < |before.log| {
      StillLate(before, events[m], k);
      n := OvertakenBefore(links, events[..m], k);
      assert events[..m][..n] == events[..n];
    } else {
      var id := w.log[k].id;
      LengthsMatch(before);
      LastInTime(before, events[m], k);
      if forall n :: 0 <= n < m ==> !Overtakes(Story(links, events[..m][..n]), events[..m][n], id) {
        UndividedUntil(links, events[..m], id);
        assert false;
      } else {
        n :| 0 <= n < m && Overtakes(Story(links, events[..m][..n]), events[..m][n], id);
        assert events[..m][..n] == events[..n];
        StoryGrows(links, events[..m], n);
      }
    }
  }

  /** So where no recovery and no unit begins on a session while another call is at work on it, sessions only
      move on, and one at most is in the test phase. */
  lemma NothingOvertaken(links: Links, events: seq<Event>)
    requires forall n, id :: 0 <= n < |events| ==> !Overtakes(Story(links, events[..n]), events[n], id)
    ensures var log := Story(links, events).log;
      Tidy(log) && forall n :: 0 <= n <= |log| ==> OneInTest(Replay(log[..n]))
  {
    hide Overtakes, Late, Tidy, OneInTest;
    var w := Story(links, events);
    forall k | 0 <= k < |w.log| ensures !Late(w, k) {
      if Late(w, k) {
        var n := OvertakenBefore(links, events, k);
      }
    }
    OnwardExactly(links, events);
    forall n | 0 <= n <= |w.log| ensures OneInTest(Replay(w.log[..n])) {
      OneTest(w.log, n);
    }
  }

  /** Some other session is in the test phase. */
  predicate Beside(sessions: Sessions, id: string) {
    exists other <- sessions :: other != id && InTestPhase(sessions[other].state)
  }

  /** Of the writes that do not look again, those of a test or a commit that take a session back to the
      test phase while another is there; a rollback makes no such write. */
  predicate Intrudes(w: World, k: nat) {
    && Blind(w, k) && w.notes[k].loaded in {Some(Prepared), Some(Activating), Some(CommitPrepared), Some(Committing)}
    && InTestPhase(w.log[k].session.state)
    && (Found(w, k).Some? ==> !InTestPhase(Found(w, k).value)) && Beside(Replay(w.log[..k]), w.log[k].id)
  }

  lemma EntersAloneExactly(links: Links, events: seq<Event>, k: nat)
    requires k < |Story(links, events).log|
    ensures var w := Story(links, events);
      EntersAlone(Replay(w.log[..k]), w.log[k]) <==> !Intrudes(w, k)
  {
    FairStep(links, events, k);
  }

  /** There is never more than one session in the test phase exactly when no such write is ever made. */
  lemma OneTestNeeds(links: Links, events: seq<Event>)
    ensures var w := Story(links, events);
      (forall n :: 0 <= n <= |w.log| ==> OneInTest(Replay(w.log[..n]))) <==>
      (forall k :: 0 <= k < |w.log| ==> !Intrudes(w, k))
  {
    var w := Story(links, events);
    forall k | 0 <= k < |w.log| ensures EntersAlone(Replay(w.log[..k]), w.log[k]) <==> !Intrudes(w, k) {
      EntersAloneExactly(links, events, k);
    }
    OneTestExactly(w.log, |w.log|);
  }

  /** What a write says of the links, except where a preparation is taken back or no test was started. */
  predicate Honest(t: Ticket, from: State, to: State, links: Links) {
    && (to == RolledBack ==> links == Both(t.previous))
    && (to == State.Committed ==> links == Both(t.candidate) || from == RollbackPrepared)
    && (to == State.Recovered ==>
      (links.runtime == Some(t.previous) && links.profile in {None, Some(t.previous)}) || from == Prepared)
  }

  /** Every recorded end had the links that go with it when its writer looked at them, and so it has them
      when it is recorded if they have not moved since. */
  lemma EndsWereSeen(links: Links, events: seq<Event>, k: nat)
    requires k < |Story(links, events).log|
    requires Story(links, events).log[k].Wrote? && Found(Story(links, events), k).Some?
    ensures var w := Story(links, events);
      && |w.notes| == |w.log| && w.notes[k].loaded.Some?
      && Honest(w.log[k].session.ticket, w.notes[k].loaded.value, w.log[k].session.state, w.notes[k].seen)
  {
    FairStep(links, events, k);
  }

  /** Nothing came between: the links are as the writer saw them, and the session as it read it. */
  predicate Undisturbed(w: World, k: nat) {
    && k < |w.log| && k < |w.notes|
    && (w.log[k].Wrote? ==> w.log[k].links == w.notes[k].seen)
    && (Blind(w, k) ==> w.notes[k].loaded == Found(w, k))
  }

  /** When nothing comes between, overlapping calls keep the law that calls one after another keep, with
      everything that follows from it. */
  lemma UndisturbedIsWritten(links: Links, events: seq<Event>)
    requires var w := Story(links, events); forall k :: 0 <= k < |w.log| ==> Undisturbed(w, k)
    ensures Written(Story(links, events).log)
  {
    var w := Story(links, events);
    forall k | 0 <= k < |w.log| ensures MayWrite(Replay(w.log[..k]), w.log[k]) {
      FairStep(links, events, k);
      assert Undisturbed(w, k);
    }
  }

  // --- runs in which something comes between

  lemma Then(links: Links, events: seq<Event>, e: Event)
    ensures Story(links, events + [e]) == Step(Story(links, events), e)
  {
    assert (events + [e])[..|events|] == events;
  }

  function Good(closure: Links): Run {
    Exited(0, closure)
  }

  /** What counts of a world in these runs. */
  predicate Looks(w: World, links: Links, sessions: Sessions, flights: seq<Flight>) {
    w.links == links && w.sessions == sessions && w.flights == flights && w.lock.None?
  }

  function Starts(t: Ticket, id: string): Event {
    TestAsked(id, t.target, t.uid, t.fingerprint, t.candidate)
  }

  /** The timer of a new test is armed, and the call is about to write that it activates. */
  lemma Armed(t: Ticket, id: string) returns (events: seq<Event>)
    ensures Looks(Story(Both(t.previous), events), Both(t.previous), map[id := Session(Prepared, t)],
      [Flight(id, Session(Prepared, t), Landing(Activating, Both(t.previous)))])
  {
    var start := Both(t.previous);
    events := [];
    Then(start, events, Starts(t, id));
    events := events + [Starts(t, id)];
    assert Story(start, events).flights == [Flight(id, Session(Prepared, t), Creating(start))];
    var go := Goes(0, Good(start), true);
    Then(start, events, go);
    events := events + [go];
    assert Story(start, events).flights == [Flight(id, Session(Prepared, t), Arming)];
    Then(start, events, go);
    events := events + [go];
  }

  /** The test is done, and the session active. */
  lemma Activated(t: Ticket, id: string) returns (events: seq<Event>)
    ensures Looks(Story(Both(t.previous), events), Links(Some(t.candidate), Some(t.previous)),
      map[id := Session(Active, t)], [Flight(id, Session(Activating, t), Done)])
  {
    hide CreateStep, ArmStep, PrepareStep, TakeBackStep, ApproachStep, EnterStep, SetStep, SwitchStep, ResetStep,
      SwitchBackStep;
    var start, testing := Both(t.previous), Links(Some(t.candidate), Some(t.previous));
    events := Armed(t, id);
    var go := Goes(0, Good(testing), true);
    Then(start, events, go);
    events := events + [go];
    assert Story(start, events).flights == [Flight(id, Session(Activating, t), Testing)];
    Then(start, events, go);
    events := events + [go];
    assert Story(start, events).flights == [Flight(id, Session(Activating, t), Landing(Active, testing))];
    Then(start, events, go);
    events := events + [go];
  }

  /** The commit is prepared, and its unit has read the session. */
  lemma UnitReady(t: Ticket, id: string) returns (events: seq<Event>, asked: Flight)
    ensures Looks(Story(Both(t.previous), events), Links(Some(t.candidate), Some(t.previous)),
      map[id := Session(CommitPrepared, t)],
      [Flight(id, Session(Activating, t), Done), asked, Flight(id, Session(CommitPrepared, t), Approaching(Commit))])
  {
    var start, testing := Both(t.previous), Links(Some(t.candidate), Some(t.previous));
    var tested := Flight(id, Session(Activating, t), Done);
    asked := Flight(id, Session(CommitPrepared, t), Done);
    events := Activated(t, id);
    Then(start, events, CommitAsked(id));
    events := events + [CommitAsked(id)];
    assert Story(start, events).flights == [tested, asked.(errand := Preparing(Commit))];
    Then(start, events, Goes(1, Good(testing), true));
    events := events + [Goes(1, Good(testing), true)];
    assert Story(start, events).flights == [tested, asked];
    Then(start, events, UnitStarts(id, Commit));
    events := events + [UnitStarts(id, Commit)];
  }

  lemma RecoveryBegins(start: Links, before: seq<Event>, w: World, id: string, t: Ticket) returns (events: seq<Event>)
    requires w == Story(start, before) && w.lock.None? && id in w.sessions && w.sessions[id].ticket == t
    requires Recoverable(w.sessions[id].state)
    ensures var next := Story(start, events);
      && next.lock == Some(|w.flights|) && next.sessions == w.sessions[id := Session(Recovering, t)]
      && next.flights == w.flights + [Flight(id, Session(Recovering, t), Resetting)]
  {
    hide Advance;
    events := before + [RecoveryStarts(id)];
    Then(start, before, RecoveryStarts(id));
  }

  /** A recovery from beginning to end. */
  lemma Restored(start: Links, before: seq<Event>, w: World, id: string, t: Ticket) returns (events: seq<Event>)
    requires w == Story(start, before) && w.lock.None? && id in w.sessions && w.sessions[id].ticket == t
    requires Recoverable(w.sessions[id].state)
    ensures Looks(Story(start, events), Both(t.previous), w.sessions[id := Session(State.Recovered, t)],
      w.flights + [Flight(id, Session(Recovering, t), Done)])
  {
    hide CreateStep, ArmStep, TestStep, PrepareStep, TakeBackStep, ApproachStep, EnterStep, SetStep, SwitchStep;
    hide Story;
    var f, c := |w.flights|, Flight(id, Session(Recovering, t), Resetting);
    var go := Goes(f, Good(Both(t.previous)), true);
    events := RecoveryBegins(start, before, w, id, t);
    assert Story(start, events).flights[f] == c;
    Then(start, events, go);
    events := events + [go];
    assert Story(start, events).flights[f].errand.SwitchingBack?;
    Then(start, events, go);
    events := events + [go];
    assert Story(start, events).flights[f].errand == Landing(State.Recovered, Both(t.previous));
    Then(start, events, go);
    events := events + [go];
  }

  /** A unit that was overtaken by a recovery finds the links back, and turns the recovered session into
      one that needs recovery. */
  lemma RecoveryIsUndone(t: Ticket, id: string) returns (earlier: seq<Event>, later: seq<Event>)
    requires t.candidate != t.previous
    ensures earlier < later
    ensures var w := Story(Both(t.previous), earlier);
      w.links == Both(t.previous) && w.sessions == map[id := Session(State.Recovered, t)]
    ensures var w := Story(Both(t.previous), later);
      w.links == Both(t.previous) && w.sessions == map[id := Session(RecoveryRequired, t)]
  {
    var start := Both(t.previous);
    var ready, asked := UnitReady(t, id);
    earlier := Restored(start, ready, Story(start, ready), id, t);
    var go := Goes(2, Good(start), true);
    Then(start, earlier, go);
    assert Story(start, earlier + [go]).flights[2].errand == Landing(RecoveryRequired, start);
    Then(start, earlier + [go], go);
    later := earlier + [go] + [go];
  }

  /** A test whose timer goes off before it has written that it activates comes back beside the next test. */
  lemma TwoTests(t: Ticket, id: string, other: string) returns (events: seq<Event>)
    requires id != other
    ensures Story(Both(t.previous), events).sessions ==
      map[id := Session(Activating, t), other := Session(Prepared, t)]
  {
    var start := Both(t.previous);
    events := Armed(t, id);
    events := Restored(start, events, Story(start, events), id, t);
    Then(start, events, Starts(t, other));
    events := events + [Starts(t, other)];
    assert Story(start, events).flights[2] == Flight(other, Session(Prepared, t), Creating(start));
    Then(start, events, Goes(2, Good(start), true));
    events := events + [Goes(2, Good(start), true)];
    Then(start, events, Goes(0, Good(start), true));
    events := events + [Goes(0, Good(start), true)];
  }

  /** A unit that has reached its destination, and is overtaken by a recovery before it says so, records
      a commit of what is no longer there. */
  lemma CommitOfNothing(t: Ticket, id: string) returns (events: seq<Event>)
    requires t.candidate != t.previous
    ensures var w := Story(Both(t.previous), events);
      w.links == Both(t.previous) && w.sessions == map[id := Session(State.Committed, t)]
  {
    var start, testing := Both(t.previous), Links(Some(t.candidate), Some(t.previous));
    var ready, asked := UnitReady(t, id);
    events := Reached(t, id, ready);
    events := Restored(start, events, Story(start, events), id, t);
    Then(start, events, Goes(2, Good(start), true));
    events := events + [Goes(2, Good(start), true)];
  }

  lemma Reached(t: Ticket, id: string, ready: seq<Event>) returns (events: seq<Event>)
    requires var w := Story(Both(t.previous), ready);
      && w.links == Links(Some(t.candidate), Some(t.previous)) && w.lock.None?
      && w.sessions == map[id := Session(CommitPrepared, t)]
      && |w.flights| == 3 && w.flights[2] == Flight(id, Session(CommitPrepared, t), Approaching(Commit))
    ensures var w := Story(Both(t.previous), events);
      && w.links == Both(t.candidate) && w.lock.None? && w.sessions == map[id := Session(Committing, t)]
      && |w.flights| == 3
      && w.flights[2] == Flight(id, Session(Committing, t), Landing(State.Committed, Both(t.candidate)))
  {
    var start, testing := Both(t.previous), Links(Some(t.candidate), Some(t.previous));
    Then(start, ready, Goes(2, Good(testing), true));
    events := ready + [Goes(2, Good(testing), true)];
    var go := Goes(2, Good(Both(t.candidate)), true);
    assert Story(start, events).flights[2] == Flight(id, Session(CommitPrepared, t), Entering(Commit));
    Then(start, events, go);
    events := events + [go];
    assert Story(start, events).flights[2] == Flight(id, Session(Committing, t), Setting(Commit, false));
    Then(start, events, go);
    events := events + [go];
    assert Story(start, events).flights[2] == Flight(id, Session(Committing, t), Switching(Commit, false));
    Then(start, events, go);
    events := events + [go];
  }
}
