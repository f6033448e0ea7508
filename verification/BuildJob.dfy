/** One build preview job: its record, its bounded event log, and the sections of its worker that run
    under the manager's lock. */
module BuildJob {
  import opened Basics

  datatype Status =
    | Queued | Preparing | Running | Analyzing | Cancelling | Cleaning
    | Passed | Failed | Cancelled | Blocked | Unavailable | Stale

  predicate Active(s: Status) {
    s in {Queued, Preparing, Running, Analyzing, Cancelling, Cleaning}
  }

  datatype Code =
    | Refused(reason: string) | BuildFailed | BuildTimedOut | WorkerRaised | Incomplete | SourceChanged

  const MAX_EVENTS: nat := 2000
  const MAX_EVENT_CHARS: nat := 4000

  datatype Event = Event(sequence: nat, stream: string, message: string)

  /** Where the worker is, between two sections, with what it remembers. */
  datatype Stage =
    | Spawned
    | Begun
    | AboutToCancel
    | Executing
    | Built(code: int, paths: seq<string>)
    | AboutToAnalyze(code: int, paths: seq<string>)
    | Comparing(code: int, paths: seq<string>)
    | AboutToClean(code: int, paths: seq<string>)
    | Removing(end: Status)
    | Raising(end: Status)
    | Returning
    | Finished

  /** The worker has not yet decided how the build ended. */
  predicate Undecided(stage: Stage) {
    !stage.Removing? && !stage.Raising? && !stage.Returning? && !stage.Finished?
  }

  /** The worker only has to close the job. */
  predicate Past(stage: Stage) {
    stage.Returning? || stage.Finished?
  }

  /** What a client is shown. */
  datatype Snapshot = Snapshot(status: Status, ready: bool, events: seq<Event>, nextCursor: nat, logsTruncated: bool)

  function Last(events: seq<Event>, count: nat): seq<Event> {
    if |events| <= count then events else events[|events| - count..]
  }

  /** A message as it is kept: its beginning, as far as it fits. */
  function Clipped(message: string): (r: string)
    ensures r <= message && |r| <= MAX_EVENT_CHARS
    ensures r == message || |r| == MAX_EVENT_CHARS
  {
    if |message| <= MAX_EVENT_CHARS then message else message[..MAX_EVENT_CHARS]
  }

  /** The log with one more line. */
  function Told(log: seq<Event>, stream: string, message: string): seq<Event> {
    log + [Event(|log| + 1, stream, Clipped(message))]
  }

  predicate Numbered(events: seq<Event>) {
    forall i :: 0 <= i < |events| ==> events[i].sequence == i + 1
  }

  /** The events numbered above `after`. */
  function Above(events: seq<Event>, after: nat): seq<Event> {
    if events == [] then []
    else if events[0].sequence > after then [events[0]] + Above(events[1..], after)
    else Above(events[1..], after)
  }

  lemma {:induction false} AboveNumbered(full: seq<Event>, from: nat, after: nat)
    requires Numbered(full) && from <= |full|
    ensures Above(full[from..], after) ==
      if after >= |full| then [] else if after >= from then full[after..] else full[from..]
    decreases |full| - from
  {
    if from < |full| {
      AboveNumbered(full, from + 1, after);
      assert full[from..][1..] == full[from + 1..];
      assert full[from..] == [full[from]] + full[from + 1..];
    }
  }

  class Job {
    const sourceEpoch: nat
    const privileged: bool
    var status: Status
    var outputs: seq<string>
    var fingerprint: Option<string>
    var exitCode: Option<int>
    var error: Option<Code>
    var cancelRequested: bool
    var cancelEvent: bool
    var timedOut: bool
    var finished: bool
    var stage: Stage
    var events: seq<Event>
    var nextSequence: nat

    ghost var emitted: seq<Event>

    /** The kept events are the tail of everything emitted. */
    ghost predicate LogKept()
      reads `events, `nextSequence, `emitted
    {
      && Numbered(emitted) && nextSequence == |emitted| + 1
      && events == Last(emitted, MAX_EVENTS)
    }

    /** What every section keeps, under the manager's current epoch. */
    ghost predicate Sound(epoch: nat)
      reads this
    {
      && LogKept() && sourceEpoch <= epoch
      && (stage == Finished ==> finished && !Active(status) && (sourceEpoch < epoch ==> status == Stale))
      && (Undecided(stage) && sourceEpoch < epoch ==> cancelEvent)
      && (!Past(stage) && sourceEpoch == epoch ==> Active(status))
      && (stage.Removing? ==> stage.end in {Passed, Failed, Cancelled} && status in {Cleaning, Cancelling, Stale})
      && (stage.Raising? ==> stage.end in {Failed, Blocked})
      && (stage == AboutToCancel ==> cancelEvent)
      && (stage == Removing(Passed) || status == Passed ==> exitCode == Some(0) && !timedOut)
      && (stage == Removing(Passed) || status == Passed ==> sourceEpoch < epoch ==> outputs == [])
      && (status == Passed ==> Past(stage))
      && (status == Stale ==> sourceEpoch < epoch)
    }

    /** The job offers its output for an activation preview. */
    predicate Ready()
      reads this
    {
      status == Passed && |outputs| == 1 && fingerprint.Some?
    }

    /** Nothing can make the job end passed any more. */
    predicate Doomed()
      reads this
    {
      status != Passed && stage != Removing(Passed) && (Undecided(stage) ==> cancelEvent)
    }

    /** Only an exception or a source change can keep the job from ending passed. */
    predicate BoundToPass()
      reads this
    {
      stage == Removing(Passed) || (Past(stage) && status == Passed)
    }

    /** The worker is done, and the result is revoked. */
    predicate Settled()
      reads this
    {
      stage == Finished && status == Stale
    }

    constructor (epoch: nat, privileged: bool)
      ensures Sound(epoch) && sourceEpoch == epoch && this.privileged == privileged
      ensures status == Queued && stage == Spawned && !cancelEvent && !timedOut && emitted == []
    {
      sourceEpoch, this.privileged := epoch, privileged;
      status, stage, finished := Queued, Spawned, false;
      outputs, fingerprint, exitCode, error := [], None, None, None;
      cancelRequested, cancelEvent, timedOut := false, false, false;
      events, nextSequence, emitted := [], 1, [];
    }

    twostate predicate Says(stream: string, message: string)
      reads `emitted
    {
      emitted == Told(old(emitted), stream, message)
    }

    method Emit(stream: string, message: string)
      requires LogKept()
      modifies `events, `nextSequence, `emitted
      ensures LogKept() && Says(stream, message)
    {
      var event := Event(nextSequence, stream, Clipped(message));
      nextSequence := nextSequence + 1;
      events := events + [event];
      if |events| > MAX_EVENTS {
        events := events[1..];
      }
      emitted := emitted + [event];
    }

    /** What a client is shown that has seen the first `after` events: all later ones, unless it is told that
        some are lost, which is so exactly when more came since than are kept. */
    ghost predicate Shows(s: Snapshot, after: nat)
      reads this
    {
      && s.status == status && s.ready == Ready()
      && (!s.logsTruncated ==> s.events == if after <= |emitted| then emitted[after..] else [])
      && (s.logsTruncated ==> s.events == Last(emitted, MAX_EVENTS))
      && (s.logsTruncated <==> after + MAX_EVENTS < |emitted|)
      && s.nextCursor == if emitted == [] then after else |emitted|
    }

    /** A client looks, from its cursor on. */
    method Poll(after: nat) returns (s: Snapshot)
      requires LogKept()
      ensures Shows(s, after)
    {
      var first := if events != [] then events[0].sequence else nextSequence;
      ghost var from := |emitted| - |events|;
      assert events == emitted[from..];
      AboveNumbered(emitted, from, after);
      s := Snapshot(status, Ready(), Above(events, after),
        if events != [] then events[|events| - 1].sequence else after,
        events != [] && after < first - 1);
    }

    method Fail(end: Status, code: Code, message: string)
      requires LogKept()
      modifies `status, `error, `events, `nextSequence, `emitted
      ensures LogKept() && status == end && error == Some(code) && Says("error", message)
    {
      status, error := end, Some(code);
      Emit("error", message);
    }

    /** The worker starts. */
    method Begin(ghost epoch: nat)
      requires Sound(epoch) && stage == Spawned
      modifies `status, `stage, `events, `nextSequence, `emitted
      ensures Sound(epoch) && stage == Begun && status == Preparing && Says("status", "preparing")
    {
      status, stage := Preparing, Begun;
      Emit("status", "preparing");
    }

    /** A check before the build refuses it. */
    method Refuse(ghost epoch: nat, end: Status, code: Code, message: string)
      requires Sound(epoch) && stage == Begun && end in {Blocked, Unavailable}
      modifies `status, `error, `stage, `events, `nextSequence, `emitted
      ensures Sound(epoch) && stage == Returning && status == end && error == Some(code) && Says("error", message)
    {
      Fail(end, code, message);
      stage := Returning;
    }

    /** Looks at the cancel flag before the build, outside the lock. */
    method LookBeforeBuild(ghost epoch: nat) returns (cancelled: bool)
      requires Sound(epoch) && stage == Begun
      modifies `stage
      ensures Sound(epoch) && cancelled == old(cancelEvent) && stage == if cancelled then AboutToCancel else Begun
    {
      cancelled := cancelEvent;
      if cancelled {
        stage := AboutToCancel;
      }
    }

    method CancelBeforeBuild(ghost epoch: nat)
      requires Sound(epoch) && stage == AboutToCancel
      modifies `status, `stage, `events, `nextSequence, `emitted
      ensures Sound(epoch) && stage == Returning && status == Cancelled && Says("status", "cancelled")
    {
      status, stage := Cancelled, Returning;
      Emit("status", "cancelled");
    }

    method Launch(ghost epoch: nat, plan: string)
      requires Sound(epoch) && stage == Begun && !privileged
      modifies `fingerprint, `status, `stage, `events, `nextSequence, `emitted
      ensures Sound(epoch) && stage == Executing && status == Running && fingerprint == Some(plan)
      ensures emitted == Told(Told(old(emitted), "status", "ready"), "command", "$ build")
    {
      fingerprint := Some(plan);
      status, stage := Running, Executing;
      Emit("status", "ready");
      Emit("command", "$ build");
    }

    /** The timer fires. */
    method TimeOut(ghost epoch: nat)
      requires Sound(epoch)
      modifies `timedOut, `cancelEvent, `status, `events, `nextSequence, `emitted
      ensures Sound(epoch)
      ensures old(status) in {Running, Analyzing} ==>
        timedOut && cancelEvent && status == Cancelling && Says("error", "timeout")
      ensures old(status) !in {Running, Analyzing} ==> unchanged(this)
    {
      if status in {Running, Analyzing} {
        timedOut, cancelEvent, status := true, true, Cancelling;
        Emit("error", "timeout");
      }
    }

    /** The build process ended; the worker decides, outside the lock, whether to compare closures. */
    method BuildEnds(ghost epoch: nat, code: int, paths: seq<string>, comparable: bool)
      requires Sound(epoch) && stage == Executing
      modifies `stage
      ensures Sound(epoch)
      ensures stage == if code == 0 && !old(cancelEvent) && |paths| == 1 && comparable
        then AboutToAnalyze(code, paths) else AboutToClean(code, paths)
    {
      stage := if code == 0 && !cancelEvent && |paths| == 1 && comparable
        then AboutToAnalyze(code, paths) else AboutToClean(code, paths);
    }

    method Analyze(ghost epoch: nat)
      requires Sound(epoch) && stage.AboutToAnalyze?
      modifies `status, `stage, `events, `nextSequence, `emitted
      ensures Sound(epoch) && stage == Comparing(old(stage.code), old(stage.paths)) && status == Analyzing
      ensures emitted == Told(Told(old(emitted), "status", "built"), "command", "$ diff")
    {
      status, stage := Analyzing, Comparing(stage.code, stage.paths);
      Emit("status", "built");
      Emit("command", "$ diff");
    }

    method Compared(ghost epoch: nat)
      requires Sound(epoch) && stage.Comparing?
      modifies `stage
      ensures Sound(epoch) && stage == AboutToClean(old(stage.code), old(stage.paths))
    {
      stage := AboutToClean(stage.code, stage.paths);
    }

    /** How the build ended, decided under the lock. */
    method Decide(ghost epoch: nat)
      requires Sound(epoch) && stage.AboutToClean?
      modifies `exitCode, `outputs, `status, `stage, `events, `nextSequence, `emitted
      ensures Sound(epoch) && stage.Removing? && status == Cleaning && Says("status", "cleaning")
      ensures stage.end == Passed <==> old(stage.code) == 0 && !old(cancelEvent) && !old(timedOut)
      ensures stage.end == Cancelled <==> old(cancelEvent) && !old(timedOut)
      ensures outputs == old(stage.paths) && exitCode == Some(old(stage.code))
    {
      exitCode, outputs := Some(stage.code), stage.paths;
      var end :=
        if timedOut then Failed
        else if stage.code == 0 then if cancelEvent then Cancelled else Passed
        else if cancelEvent then Cancelled
        else Failed;
      status, stage := Cleaning, Removing(end);
      Emit("status", "cleaning");
    }

    method Finish(ghost epoch: nat)
      requires Sound(epoch) && stage.Removing?
      modifies `status, `error, `stage, `events, `nextSequence, `emitted
      ensures Sound(epoch) && stage == Returning && status == old(stage.end)
      ensures old(stage.end) == Failed ==>
        error == Some(if timedOut then BuildTimedOut else BuildFailed) && Says("error", "failed")
      ensures old(stage.end) != Failed ==> error == old(error) && Says("status", "ended")
    {
      if stage.end == Failed {
        Fail(Failed, if timedOut then BuildTimedOut else BuildFailed, "failed");
      } else {
        status := stage.end;
        Emit("status", "ended");
      }
      stage := Returning;
    }

    /** Something raises between two sections. */
    method Raise(ghost epoch: nat, end: Status)
      requires Sound(epoch) && !Past(stage) && stage != Spawned
      requires end in {Failed, Blocked}
      modifies `stage
      ensures Sound(epoch) && stage == Raising(end)
    {
      stage := Raising(end);
    }

    method Caught(ghost epoch: nat)
      requires Sound(epoch) && stage.Raising?
      modifies `status, `error, `stage, `events, `nextSequence, `emitted
      ensures Sound(epoch) && stage == Returning && status == old(stage.end)
      ensures error == Some(WorkerRaised) && Says("error", "raised")
    {
      Fail(stage.end, WorkerRaised, "raised");
      stage := Returning;
    }

    /** The last section of the worker. */
    method Close(epoch: nat)
      requires Sound(epoch) && stage == Returning
      modifies `finished, `stage, `status, `outputs, `error, `events, `nextSequence, `emitted
      ensures Sound(epoch) && stage == Finished
      ensures sourceEpoch < epoch ==>
        status == Stale && outputs == [] && error == Some(SourceChanged) && emitted == old(emitted)
      ensures sourceEpoch == epoch && !Active(old(status)) ==>
        status == old(status) && outputs == old(outputs) && error == old(error) && emitted == old(emitted)
      ensures sourceEpoch == epoch && Active(old(status)) ==>
        && outputs == old(outputs)
        && if cancelEvent then status == Cancelled && error == old(error) && Says("status", "cancelled")
           else status == Failed && error == Some(Incomplete) && Says("error", "incomplete")
    {
      finished, stage := true, Finished;
      if sourceEpoch != epoch {
        status, outputs, error := Stale, [], Some(SourceChanged);
      } else if Active(status) {
        if cancelEvent {
          status := Cancelled;
          Emit("status", "cancelled");
        } else {
          Fail(Failed, Incomplete, "incomplete");
        }
      }
    }

    /** A user asks to cancel, or the server shuts down. */
    method Cancel(ghost epoch: nat)
      requires Sound(epoch)
      modifies `cancelRequested, `cancelEvent, `status, `events, `nextSequence, `emitted
      ensures Sound(epoch)
      ensures Active(old(status)) ==>
        cancelRequested && cancelEvent && status == Cancelling && Says("status", "cancelling")
      ensures !Active(old(status)) ==> unchanged(this)
    {
      if Active(status) {
        cancelRequested, cancelEvent, status := true, true, Cancelling;
        Emit("status", "cancelling");
      }
    }

    /** The source changed; the manager's epoch has just become `epoch`. */
    method Revoke(epoch: nat, reason: string)
      requires epoch > 0 && Sound(epoch - 1)
      modifies `cancelRequested, `cancelEvent, `status, `outputs, `error, `events, `nextSequence, `emitted
      ensures Sound(epoch) && status == Stale && outputs == [] && error == Some(SourceChanged) && Says("error", reason)
      ensures if Active(old(status)) then cancelRequested && cancelEvent
        else cancelRequested == old(cancelRequested) && cancelEvent == old(cancelEvent)
    {
      if Active(status) {
        cancelRequested, cancelEvent := true, true;
      }
      status, outputs, error := Stale, [], Some(SourceChanged);
      Emit("error", reason);
    }

    /** The section is an exception that the worker meets now. */
    predicate Raises(section: Section)
      reads this
    {
      section.RaiseIt? && section.end in {Failed, Blocked} && !Past(stage) && stage != Spawned
    }

    /** How a section leaves the prospects of the job. */
    twostate predicate Prospects(epoch: nat, raises: bool, finishes: bool)
      reads this
    {
      && (old(Settled()) ==> Settled())
      && (Past(old(stage)) ==> Past(stage))
      && (old(Doomed()) ==> Doomed())
      && (old(BoundToPass()) && sourceEpoch == epoch ==> if raises then Doomed() else BoundToPass())
      && (old(stage == Removing(Passed)) && !raises ==> stage == if finishes then Returning else Removing(Passed))
    }

    /** The section can run now. */
    predicate Due(section: Section)
      reads this
    {
      match section
      case BeginIt => stage == Spawned
      case RefuseIt(end, _) => stage == Begun && end in {Blocked, Unavailable}
      case LookIt => stage == Begun
      case CancelEarly => stage == AboutToCancel
      case LaunchIt(_) => stage == Begun && !privileged
      case BuildEnded(_, _, _) => stage == Executing
      case AnalyzeIt => stage.AboutToAnalyze?
      case ComparedIt => stage.Comparing?
      case DecideIt => stage.AboutToClean?
      case FinishIt => stage.Removing?
      case RaiseIt(_) => Raises(section)
      case CaughtIt => stage.Raising?
      case CloseIt => stage == Returning
      case FireTimer => true
      case CancelIt => true
      case Line(_, _) => true
    }

    twostate predicate SaysNothing()
      reads this
    {
      status == old(status) && error == old(error) && emitted == old(emitted)
    }

    /** What the section does when it runs. */
    twostate predicate Took(epoch: nat, section: Section)
      requires old(Due(section))
      reads this
    {
      match section
      case BeginIt => stage == Begun && status == Preparing && Says("status", "preparing")
      case RefuseIt(end, reason) =>
        stage == Returning && status == end && error == Some(Refused(reason)) && Says("error", reason)
      case LookIt => stage == (if old(cancelEvent) then AboutToCancel else Begun) && SaysNothing()
      case CancelEarly => stage == Returning && status == Cancelled && Says("status", "cancelled")
      case LaunchIt(plan) => stage == Executing && status == Running && fingerprint == Some(plan)
      case BuildEnded(code, paths, comparable) =>
        && SaysNothing()
        && stage == if code == 0 && !old(cancelEvent) && |paths| == 1 && comparable
                    then AboutToAnalyze(code, paths) else AboutToClean(code, paths)
      case AnalyzeIt => stage == Comparing(old(stage.code), old(stage.paths)) && status == Analyzing
      case ComparedIt => stage == AboutToClean(old(stage.code), old(stage.paths)) && SaysNothing()
      case DecideIt =>
        && stage.Removing? && status == Cleaning && exitCode == Some(old(stage.code)) && outputs == old(stage.paths)
        && (stage.end == Passed <==> old(stage.code) == 0 && !cancelEvent && !timedOut)
        && (stage.end == Cancelled <==> cancelEvent && !timedOut)
      case FinishIt => stage == Returning && status == old(stage.end)
      case RaiseIt(end) => stage == Raising(end) && SaysNothing()
      case CaughtIt => stage == Returning && status == old(stage.end) && error == Some(WorkerRaised)
      case CloseIt =>
        && stage == Finished && (sourceEpoch < epoch ==> status == Stale && outputs == [])
        && (sourceEpoch == epoch ==>
             && outputs == old(outputs)
             && status == if !Active(old(status)) then old(status) else if cancelEvent then Cancelled else Failed)
      case FireTimer =>
        if old(status) in {Running, Analyzing}
        then timedOut && cancelEvent && status == Cancelling && stage == old(stage) else unchanged(this)
      case CancelIt =>
        if Active(old(status))
        then cancelRequested && cancelEvent && status == Cancelling && stage == old(stage) else unchanged(this)
      case Line(stream, text) =>
        stage == old(stage) && status == old(status) && error == old(error) && Says(stream, text)
    }

    /** What a step leaves behind: a section that is due does its work and the log only grows, any other does
        nothing. */
    twostate predicate Stepped(epoch: nat, section: Section)
      reads this
    {
      && old(emitted) <= emitted
      && if old(Due(section)) then Took(epoch, section) else unchanged(this)
    }

    /** A section of the worker up to the end of its build. */
    method StepBuild(epoch: nat, section: Section)
      requires Sound(epoch) && Kind(section) == Build && Due(section)
      modifies this
      ensures Sound(epoch) && Prospects(epoch, false, false) && Stepped(epoch, section)
    {
      match section {
        case BeginIt => Begin(epoch);
        case RefuseIt(end, reason) => Refuse(epoch, end, Refused(reason), reason);
        case LookIt => var _ := LookBeforeBuild(epoch);
        case CancelEarly => CancelBeforeBuild(epoch);
        case LaunchIt(plan) => Launch(epoch, plan);
        case BuildEnded(code, paths, comparable) => BuildEnds(epoch, code, paths, comparable);
        case AnalyzeIt => Analyze(epoch);
        case ComparedIt => Compared(epoch);
      }
    }

    /** A section of the worker from there on. */
    method StepEnd(epoch: nat, section: Section)
      requires Sound(epoch) && Kind(section) == Ending && Due(section)
      modifies this
      ensures Sound(epoch) && Prospects(epoch, section.RaiseIt?, section.FinishIt?) && Stepped(epoch, section)
    {
      match section {
        case DecideIt => Decide(epoch);
        case FinishIt => Finish(epoch);
        case RaiseIt(end) => Raise(epoch, end);
        case CaughtIt => Caught(epoch);
        case CloseIt => Close(epoch);
      }
    }

    /** What another thread does. */
    method StepBeside(epoch: nat, section: Section)
      requires Sound(epoch) && Kind(section) == Beside && Due(section)
      modifies this
      ensures Sound(epoch) && Prospects(epoch, false, false) && Stepped(epoch, section)
    {
      match section {
        case FireTimer => TimeOut(epoch);
        case CancelIt => Cancel(epoch);
        case Line(stream, text) => Emit(stream, text);
      }
    }

    /** One section of the worker or of a thread beside it, if it is due. */
    method Step(epoch: nat, section: Section)
      requires Sound(epoch)
      modifies this
      ensures Sound(epoch) && Prospects(epoch, old(Raises(section)), section.FinishIt?) && Stepped(epoch, section)
    {
      if Due(section) {
        match Kind(section) {
          case Build => StepBuild(epoch, section);
          case Ending => StepEnd(epoch, section);
          case Beside => StepBeside(epoch, section);
        }
      }
    }
  }

  datatype SectionKind = Build | Ending | Beside

  function Kind(section: Section): SectionKind {
    match section
    case FireTimer => Beside
    case CancelIt => Beside
    case Line(_, _) => Beside
    case DecideIt => Ending
    case FinishIt => Ending
    case RaiseIt(_) => Ending
    case CaughtIt => Ending
    case CloseIt => Ending
    case _ => Build
  }

  datatype Section =
    | BeginIt | RefuseIt(end: Status, reason: string) | LookIt | CancelEarly | LaunchIt(plan: string) | FireTimer
    | BuildEnded(code: int, paths: seq<string>, comparable: bool) | AnalyzeIt | ComparedIt | DecideIt | FinishIt
    | RaiseIt(end: Status) | CaughtIt | CloseIt | CancelIt | Line(stream: string, text: string)
}
