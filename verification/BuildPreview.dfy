/** The build-preview manager: its jobs, the source epoch, and every interleaving of the threads around it. */
module BuildPreview {
  import opened Basics
  import opened BuildJob

  const MAX_JOBS: nat := 8

  /** The identifiers a manager of `n` jobs keeps: the last eight, and the active one. */
  predicate Books(n: nat, kept: set<nat>, order: seq<nat>, active: Option<nat>) {
    && (forall k <- kept :: k < n)
    && |order| <= n && |order| <= MAX_JOBS && (n > 0 ==> order != [])
    && (forall i :: 0 <= i < |order| ==> order[i] == n - |order| + i && order[i] in kept)
    && (active.Some? ==> active.value in kept)
  }

  ghost predicate AllSound(created: seq<Job>, kept: set<nat>, epoch: nat)
    reads created
  {
    forall k <- kept :: k < |created| && created[k].Sound(epoch)
  }

  /** Of the jobs of the current source epoch only the active one can still have a worker at its build. */
  ghost predicate OneWorker(created: seq<Job>, kept: set<nat>, active: Option<nat>, epoch: nat)
    reads created
  {
    forall k <- kept :: k < |created| && created[k].sourceEpoch == epoch && !Past(created[k].stage) ==>
      active == Some(k)
  }

  ghost predicate Distinct(created: seq<Job>) {
    forall i, j :: 0 <= i < j < |created| ==> created[i] != created[j]
  }

  class Manager {
    /** Every job ever started; its place is its identifier. */
    var created: seq<Job>
    var kept: set<nat>
    var order: seq<nat>
    var active: Option<nat>
    var closed: bool
    var epoch: nat

    ghost predicate Valid()
      reads this, created
    {
      && Distinct(created) && AllSound(created, kept, epoch) && Books(|created|, kept, order, active)
      && OneWorker(created, kept, active, epoch)
    }

    constructor ()
      ensures Valid() && created == [] && kept == {} && active == None && epoch == 0 && !closed
    {
      created, kept, order, active, closed, epoch := [], {}, [], None, false, 0;
    }

    /** Makes the newest job the active one; with more than eight, forgets the oldest of the order unless
        it was active until now. */
    method Admit(k: nat)
      requires Books(k, kept, order, active)
      modifies `kept, `order, `active
      ensures Books(k + 1, kept, order, active) && active == Some(k)
      ensures kept == old(kept) + {k} -
        if |old(order)| == MAX_JOBS && old(active) != Some(old(order)[0]) then {old(order)[0]} else {}
    {
      kept, order := kept + {k}, order + [k];
      if |order| > MAX_JOBS {
        var expired := order[0];
        order := order[1..];
        if active != Some(expired) {
          kept := kept - {expired};
        }
      }
      active := Some(k);
    }

    predicate Busy()
      requires active.Some? ==> active.value < |created|
      reads this, created
    {
      active.Some? && Active(created[active.value].status)
    }

    /** When the active job is not running, no worker of the current source epoch is at its build. */
    lemma IdleMeansPast()
      requires Valid() && !Busy()
      ensures forall k <- kept :: created[k].sourceEpoch == epoch ==> Past(created[k].stage)
      ensures active.Some? ==> Past(created[active.value].stage) || created[active.value].sourceEpoch < epoch
    {
      forall k | k in kept && created[k].sourceEpoch == epoch ensures Past(created[k].stage) {
        assert created[k].Sound(epoch);
      }
    }

    /** Starts a job unless one is running or the manager is closed. */
    method Start(privileged: bool) returns (id: Option<nat>)
      requires Valid()
      modifies this
      ensures Valid() && epoch == old(epoch) && closed == old(closed)
      ensures id.None? <==> old(closed) || old(Busy())
      ensures id.None? ==> created == old(created) && kept == old(kept) && active == old(active)
      ensures id.Some? && |old(order)| < MAX_JOBS ==> kept == old(kept) + {id.value}
      ensures id.Some? ==>
        && active == id && id.value == |old(created)| && id.value in kept
        && |created| == |old(created)| + 1 && created == old(created) + [created[id.value]] && fresh(created[id.value])
        && created[id.value].sourceEpoch == epoch && created[id.value].stage == Spawned
        && created[id.value].privileged == privileged && created[id.value].status == Queued
        && created[id.value].emitted == Told([], "status", "queued")
      ensures id.Some? && old(active).Some? ==>
        old(Past(created[active.value].stage) || created[active.value].sourceEpoch < epoch)
    {
      if closed || Busy() {
        return None;
      }
      IdleMeansPast();
      var job := new Job(epoch, privileged);
      job.Emit("status", "queued");
      var k := |created|;
      Admit(k);
      created := created + [job];
      id := active;
    }

    /** The source changed: every result so far is revoked. */
    method Invalidate(reason: string)
      requires Valid()
      modifies this`epoch, created
      ensures Valid() && epoch == old(epoch) + 1
      ensures forall job <- created :: job.stage == old(job.stage) && job.status in {old(job.status), Stale}
      ensures forall k <- kept ::
        && created[k].status == Stale && created[k].outputs == []
        && created[k].emitted == Told(old(created[k].emitted), "error", reason)
      ensures forall k :: 0 <= k < |created| && k !in kept ==> unchanged(created[k])
    {
      epoch := epoch + 1;
      for k := 0 to |created|
        invariant epoch == old(epoch) + 1
        invariant forall i :: k <= i < |created| ==> unchanged(created[i])
        invariant forall i :: 0 <= i < k ==>
          created[i].stage == old(created[i].stage) && created[i].status in {old(created[i].status), Stale}
        invariant forall i <- kept :: i < k ==>
          && created[i].Sound(epoch) && created[i].status == Stale && created[i].outputs == []
          && created[i].emitted == Told(old(created[i].emitted), "error", reason)
        invariant forall i :: 0 <= i < k && i !in kept ==> unchanged(created[i])
      {
        if k in kept {
          created[k].Revoke(epoch, reason);
        }
      }
    }

    /** Some thread's next section on a job that can still be seen. */
    method Step(k: nat, section: Section)
      requires Valid()
      modifies created
      ensures Valid()
      ensures forall i :: 0 <= i < |created| && (i != k || k !in kept) ==> unchanged(created[i])
      ensures k in kept ==> created[k].Stepped(epoch, section)
      ensures forall job <- created :: old(job.Settled()) ==> job.Settled()
    {
      if k in kept {
        created[k].Step(epoch, section);
      }
    }

    method Close()
      requires Valid()
      modifies this`closed, created
      ensures Valid() && closed
      ensures old(Busy()) ==>
        && created[active.value].cancelEvent && created[active.value].status == Cancelling
        && created[active.value].Says("status", "cancelling")
      ensures forall i :: 0 <= i < |created| && !(old(Busy()) && active == Some(i)) ==> unchanged(created[i])
      ensures forall job <- created :: old(job.Settled()) ==> job.Settled()
    {
      closed := true;
      if active.Some? {
        created[active.value].Cancel(epoch);
      }
    }

    /** The newest job, from the client's cursor on, or nothing before the first. */
    method Latest(after: nat) returns (s: Option<Snapshot>)
      requires Valid()
      ensures s.None? <==> created == []
      ensures s.Some? ==> created[|created| - 1].Shows(s.value, after)
      ensures s.Some? && s.value.ready ==> created[|created| - 1].sourceEpoch == epoch
    {
      if order == [] {
        return None;
      }
      var latest := created[order[|order| - 1]].Poll(after);
      s := Some(latest);
    }

    /** One job, from the client's cursor on. */
    method Poll(k: nat, after: nat) returns (s: Option<Snapshot>)
      requires Valid()
      ensures s.Some? <==> k in kept
      ensures s.Some? ==> created[k].Shows(s.value, after)
      ensures s.Some? && s.value.ready ==> created[k].sourceEpoch == epoch && created[k].exitCode == Some(0)
    {
      if k !in kept {
        return None;
      }
      var snapshot := created[k].Poll(after);
      s := Some(snapshot);
    }
  }

  datatype Action =
    | StartJob(privileged: bool) | SourceChanges(reason: string) | Worker(k: nat, section: Section) | Shutdown

  function Changes(actions: seq<Action>): nat {
    if actions == [] then 0
    else Changes(actions[..|actions| - 1]) + if actions[|actions| - 1].SourceChanges? then 1 else 0
  }

  /** No job of an older source epoch offers its output, and the finished ones say that they are stale. */
  ghost predicate OldAreStale(m: Manager)
    reads m, m.created
  {
    forall k <- m.kept :: k < |m.created| ==>
      var job := m.created[k];
      job.sourceEpoch < m.epoch ==> !job.Ready() && (job.stage == Finished ==> job.status == Stale)
  }

  lemma SoundMeansStale(m: Manager)
    requires m.Valid()
    ensures OldAreStale(m)
  {
  }

  /** Jobs are only added, each says ever more, and one that is settled stays so. */
  twostate predicate GoesOn(m: Manager, jobs: seq<Job>)
    reads m, jobs
  {
    && jobs <= m.created
    && forall job <- jobs :: old(job.emitted) <= job.emitted && (old(job.Settled()) ==> job.Settled())
  }

  method Act(m: Manager, action: Action)
    requires m.Valid()
    modifies m, m.created
    ensures m.Valid() && GoesOn(m, old(m.created))
    ensures m.epoch == old(m.epoch) + if action.SourceChanges? then 1 else 0
    ensures m.closed == (old(m.closed) || action == Shutdown)
    ensures |m.created| == |old(m.created)| +
      if action.StartJob? && !old(m.closed) && !old(m.Busy()) then 1 else 0
    ensures action.Worker? && action.k in old(m.kept) ==> m.created[action.k].Stepped(m.epoch, action.section)
    ensures action.SourceChanges? ==> forall k <- m.kept :: m.created[k].status == Stale
    ensures forall k :: |old(m.created)| <= k < |m.created| ==> fresh(m.created[k])
  {
    match action {
      case StartJob(privileged) => var id := m.Start(privileged);
      case SourceChanges(reason) => m.Invalidate(reason);
      case Worker(k, section) => m.Step(k, section);
      case Shutdown => m.Close();
    }
  }

  /** Any interleaving of starts, source changes, worker sections, cancels and timeouts: at every moment
      no job of an older source epoch offers its output. */
  method RunActions(m: Manager, actions: seq<Action>)
    requires m.Valid()
    modifies m, m.created
    ensures m.Valid() && OldAreStale(m) && OneWorker(m.created, m.kept, m.active, m.epoch) && GoesOn(m, old(m.created))
    ensures m.epoch == old(m.epoch) + Changes(actions) && m.closed == (old(m.closed) || Shutdown in actions)
    ensures forall k :: |old(m.created)| <= k < |m.created| ==> fresh(m.created[k])
  {
    for c := 0 to |actions|
      invariant m.Valid() && GoesOn(m, old(m.created))
      invariant m.epoch == old(m.epoch) + Changes(actions[..c])
      invariant m.closed == (old(m.closed) || Shutdown in actions[..c])
      invariant forall k :: |old(m.created)| <= k < |m.created| ==> fresh(m.created[k])
    {
      hide Manager.Valid;
      Act(m, actions[c]);
      assert actions[..c + 1][..c] == actions[..c];
    }
    assert actions[..|actions|] == actions;
    SoundMeansStale(m);
  }

  predicate Increasing(events: seq<Event>) {
    forall i, j :: 0 <= i < j < |events| ==> events[i].sequence < events[j].sequence
  }

  /** The received events are emitted ones, each at most once, in order, none beyond the cursor. */
  predicate Received(received: seq<Event>, emitted: seq<Event>, cursor: nat) {
    && Increasing(received)
    && forall e <- received :: 0 < e.sequence <= cursor <= |emitted| && e == emitted[e.sequence - 1]
  }

  lemma ReceivedMore(received: seq<Event>, emitted: seq<Event>, cursor: nat, from: nat)
    requires Numbered(emitted) && cursor <= from <= |emitted| && Received(received, emitted, cursor)
    ensures Received(received + emitted[from..], emitted, |emitted|)
  {
    var all := received + emitted[from..];
    forall e | e in all ensures 0 < e.sequence <= |emitted| && e == emitted[e.sequence - 1] {
      if e !in received {
        var i :| 0 <= i < |emitted| - from && e == emitted[from..][i];
        assert e == emitted[from + i];
      }
    }
    forall i, j | 0 <= i < j < |all| ensures all[i].sequence < all[j].sequence {
      if j >= |received| {
        assert all[j] == emitted[from + (j - |received|)];
        if i >= |received| {
          assert all[i] == emitted[from + (i - |received|)];
        } else {
          assert all[i] in received;
        }
      }
    }
  }

  /** How many events there were at each look, and which looks said that some were lost. */
  ghost predicate Looked(start: nat, counts: seq<nat>, truncated: seq<bool>) {
    && |truncated| == |counts|
    && forall i :: 0 <= i < |counts| ==>
         && Cursor(start, counts[..i]) <= counts[i]
         && (truncated[i] <==> counts[i] - Cursor(start, counts[..i]) > MAX_EVENTS)
  }

  ghost function Cursor(start: nat, counts: seq<nat>): nat {
    if counts == [] then start else counts[|counts| - 1]
  }

  /** A client that joined with the cursor `start` has received emitted events only, each at most once and in
      order; all of them, from there to its last look, unless a look said that some were lost; and a look said
      so exactly when more had come since the one before than the log keeps. */
  ghost predicate Followed(start: nat, emitted: seq<Event>, received: seq<Event>, truncated: seq<bool>,
      counts: seq<nat>)
  {
    var cursor := Cursor(start, counts);
    && Looked(start, counts, truncated) && start <= cursor <= |emitted| && Received(received, emitted, cursor)
    && (true !in truncated ==> received == emitted[start..cursor])
  }

  lemma NothingYet(start: nat, emitted: seq<Event>)
    requires start <= |emitted|
    ensures Followed(start, emitted, [], [], [])
  {
  }

  lemma MoreCame(start: nat, before: seq<Event>, now: seq<Event>, received: seq<Event>, truncated: seq<bool>,
      counts: seq<nat>)
    requires Followed(start, before, received, truncated, counts) && before <= now
    ensures Followed(start, now, received, truncated, counts)
  {
    assert before[start..Cursor(start, counts)] == now[start..Cursor(start, counts)];
  }

  /** One more look. */
  lemma NextLook(start: nat, now: seq<Event>, received: seq<Event>, truncated: seq<bool>, counts: seq<nat>,
      s: Snapshot)
    requires Followed(start, now, received, truncated, counts) && Numbered(now)
    requires var cursor := Cursor(start, counts);
      && cursor <= |now|
      && (!s.logsTruncated ==> s.events == now[cursor..]) && (s.logsTruncated ==> s.events == Last(now, MAX_EVENTS))
      && (s.logsTruncated <==> cursor + MAX_EVENTS < |now|)
    ensures Followed(start, now, received + s.events, truncated + [s.logsTruncated], counts + [|now|])
  {
    var cursor := Cursor(start, counts);
    forall i | 0 <= i <= |counts| ensures (counts + [|now|])[..i] == counts[..i] {
    }
    assert counts[..|counts|] == counts;
    Join(received, now[..cursor], now, start, s.events);
    assert now[start..|now|] == now[start..] && now[..cursor][start..] == now[start..cursor];
  }

  /** Such a client goes through the manager, and anything may happen between its looks, until it stops or the
      job is forgotten. */
  method Follow(m: Manager, k: nat, start: nat, rounds: seq<seq<Action>>)
    returns (received: seq<Event>, truncated: seq<bool>, ghost counts: seq<nat>)
    requires m.Valid() && k in m.kept && start <= |m.created[k].emitted|
    modifies m, m.created
    ensures m.Valid() && k < |m.created| && m.created[k] == old(m.created[k])
    ensures if k in m.kept then |counts| == |rounds| else |counts| <= |rounds|
    ensures Followed(start, m.created[k].emitted, received, truncated, counts)
  {
    received, truncated, counts := [], [], [];
    var cursor := start;
    var job := m.created[k];
    ghost var jobs := m.created;
    NothingYet(start, job.emitted);
    hide Followed, OldAreStale, OneWorker;
    for r := 0 to |rounds|
      invariant m.Valid() && k in m.kept && jobs <= m.created
      invariant forall i :: |jobs| <= i < |m.created| ==> fresh(m.created[i])
      invariant Followed(start, job.emitted, received, truncated, counts) && |counts| == r
      invariant cursor == Cursor(start, counts) <= |job.emitted|
    {
      ghost var before := job.emitted;
      RunActions(m, rounds[r]);
      MoreCame(start, before, job.emitted, received, truncated, counts);
      var s := m.Poll(k, cursor);
      if s.None? {
        return;
      }
      assert m.created[k] == job && job.LogKept();
      NextLook(start, job.emitted, received, truncated, counts, s.value);
      received, cursor, truncated := received + s.value.events, s.value.nextCursor, truncated + [s.value.logsTruncated];
      counts := counts + [|job.emitted|];
    }
  }

  lemma Join(received: seq<Event>, before: seq<Event>, now: seq<Event>, start: nat, more: seq<Event>)
    requires Numbered(now) && before <= now && start <= |before| && Received(received, before, |before|)
    requires |more| <= |now| - |before| && more == now[|now| - |more|..]
    ensures Received(received + more, now, |now|)
    ensures received == before[start..] && |more| == |now| - |before| ==> received + more == now[start..]
  {
    ReceivedMore(received, now, |before|, |now| - |more|);
  }

  /** What can happen to a job: a section of some thread, or a change of the source. */
  datatype Happening = Do(section: Section) | SourceChange(reason: string)

  /** An exception that the worker meets. */
  predicate IsException(event: Happening) {
    event.Do? && event.section.RaiseIt? && event.section.end in {Failed, Blocked}
  }

  /** The source does not change, and the worker meets no exception before its copy is removed. */
  predicate LetsItPass(events: seq<Happening>) {
    && (forall i :: 0 <= i < |events| ==> events[i].Do?)
    && (forall i :: 0 <= i < |events| && IsException(events[i]) ==> Do(FinishIt) in events[..i])
  }

  lemma OneMoreEvent(events: seq<Happening>, k: nat)
    requires k < |events|
    ensures LetsItPass(events[..k + 1]) <==>
      && LetsItPass(events[..k]) && events[k].Do? && (IsException(events[k]) ==> Do(FinishIt) in events[..k])
    ensures Do(FinishIt) in events[..k + 1] <==> Do(FinishIt) in events[..k] || events[k] == Do(FinishIt)
  {
    var now, next := events[..k], events[..k + 1];
    assert next == now + [events[k]] && next[..k] == now;
    forall i | 0 <= i < k ensures next[i] == now[i] && next[..i] == now[..i] {
    }
  }

  /** A job through any sequence of these. A doomed one never ends passed; one whose build has passed ends
      passed exactly if the source does not change and its worker meets no exception before its copy is
      removed. */
  method Live(job: Job, start: nat, events: seq<Happening>) returns (epoch: nat)
    requires job.Sound(start)
    modifies job
    ensures job.Sound(epoch)
    ensures old(job.Doomed()) ==> job.status != Passed
    ensures old(job.stage == Removing(Passed)) && job.sourceEpoch == start && job.stage == Finished ==>
      (job.status == Passed <==> LetsItPass(events))
  {
    epoch := start;
    ghost var bound := job.stage == Removing(Passed) && job.sourceEpoch == start;
    for k := 0 to |events|
      invariant job.Sound(epoch) && epoch >= start
      invariant epoch == start <==> forall i :: 0 <= i < k ==> events[i].Do?
      invariant old(job.Doomed()) ==> job.Doomed()
      invariant bound && epoch == start && LetsItPass(events[..k]) ==>
        job.BoundToPass() && (job.stage.Removing? <==> Do(FinishIt) !in events[..k])
      invariant bound && epoch == start && !LetsItPass(events[..k]) ==> job.Doomed()
    {
      OneMoreEvent(events, k);
      match events[k] {
        case Do(section) =>
          job.Step(epoch, section);
        case SourceChange(reason) =>
          epoch := epoch + 1;
          job.Revoke(epoch, reason);
      }
    }
    assert events[..|events|] == events;
  }

  /** A cancel that is accepted, and whatever happens after it. While the worker has not decided how the
      build ended, the job then never ends passed. Once it has decided for passed the cancel is too late:
      the job still ends passed, exactly if the source does not change and the worker meets no exception
      before its copy is removed. */
  method CancelThen(job: Job, start: nat, events: seq<Happening>) returns (epoch: nat)
    requires job.Sound(start) && Active(job.status)
    modifies job
    ensures job.Sound(epoch)
    ensures old(Undecided(job.stage)) ==> job.status != Passed
    ensures old(job.stage == Removing(Passed)) && job.sourceEpoch == start && job.stage == Finished ==>
      (job.status == Passed <==> LetsItPass(events))
  {
    job.Cancel(start);
    epoch := Live(job, start, events);
  }

  method BuiltAndPassed() returns (job: Job)
    ensures fresh(job) && job.Sound(0) && job.stage == Removing(Passed) && job.status == Cleaning
    ensures |job.outputs| == 1 && job.fingerprint.Some?
  {
    job := new Job(0, false);
    job.Begin(0);
    job.Launch(0, "p");
    job.BuildEnds(0, 0, ["o"], false);
    job.Decide(0);
  }

  /** A cancel that comes while the copy is removed is accepted and too late: the job still ends passed. */
  method CancelCanComeTooLate() returns (job: Job)
    ensures job.Sound(0) && job.stage == Finished && job.cancelRequested && job.status == Passed && job.Ready()
  {
    job := BuiltAndPassed();
    job.Cancel(0);
    job.Finish(0);
    job.Close(0);
  }

  method FirstIsBuilding() returns (m: Manager)
    ensures fresh(m) && fresh(m.created) && m.Valid() && |m.created| == 1 && m.kept == {0}
    ensures m.active == Some(0) && !m.closed && m.order == [0]
    ensures m.created[0].stage == Executing
  {
    m := new Manager();
    var first := m.Start(false);
    m.created[0].Begin(0);
    m.created[0].Launch(0, "p");
  }

  /** After a source change a new job can start while the old worker is still building. */
  method WorkersCanOverlap() returns (m: Manager)
    ensures m.Valid() && |m.created| == 2 && m.kept == {0, 1}
    ensures m.created[0].stage == Executing && m.created[1].stage == Spawned
  {
    m := FirstIsBuilding();
    m.Invalidate("x");
    var second := m.Start(false);
  }
}
