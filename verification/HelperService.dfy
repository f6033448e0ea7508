/** The dispatcher's receipt tables and the backends' tables of validated plans. */
module HelperService {
  import opened Basics
  import opened HelperModel

  /** The tables of a desk, and its history. */
  datatype Ledger = Ledger(tables: Tables, log: seq<Record>)

  /** The pending receipts of one workflow, and the plans its backend has validated. */
  class Desk {
    const workflow: Workflow
    const targets: map<string, Target>
    const lifetime: nat
    var pending: map<Token, Grant>
    var prepared: map<Key, Payload>

    ghost var log: seq<Record>
    /** Which receipt stands behind a prepared plan. */
    ghost var holder: map<Key, Token>

    /** The pending receipts are those granted and not ended; every prepared plan of a target that allows
        applying is the one the history tells, and has a pending receipt for that very plan. */
    ghost predicate Valid()
      reads this
    {
      && Accounts(log, pending) && (workflow == TestRun ==> prepared == map[])
      && AllHeld(pending, prepared, holder) && Told(workflow, targets, log, prepared)
    }

    /** Receipts are handed out where they can be used, and are pending until they end. */
    ghost predicate Accounts(log: seq<Record>, pending: map<Token, Grant>) {
      && Legal(workflow, log) && Ended(log) <= Grants(log).Keys && pending == Grants(log) - Ended(log)
      && (forall r <- Grants(log) :: Applicable(Grants(log)[r]))
    }

    predicate Applicable(g: Grant) {
      Accepts(g.payload) && MayApply(workflow, targets[g.payload.target])
    }

    ghost predicate AllHeld(pending: map<Token, Grant>, prepared: map<Key, Payload>, holder: map<Key, Token>) {
      forall k <- prepared ::
        k.0 in targets && (MayApply(workflow, targets[k.0]) ==>
          && k in holder && holder[k] in pending
          && KeyOf(pending[holder[k]]) == k && pending[holder[k]].payload == prepared[k])
    }

    lemma GrantCounts(log: seq<Record>, pending: map<Token, Grant>, receipt: Token, g: Grant, kept: bool)
      requires Accounts(log, pending) && receipt !in Grants(log) && Applicable(g)
      ensures receipt !in pending && Accounts(log + [Granted(receipt, g, kept)], pending[receipt := g])
      ensures Grants(log + [Granted(receipt, g, kept)]).Keys == Grants(log).Keys + {receipt}
    {
      LegalNext(workflow, log, Granted(receipt, g, kept));
    }

    lemma EndCounts(log: seq<Record>, pending: map<Token, Grant>, r: Record)
      requires Accounts(log, pending) && (r.Dropped? || r.Called?) && Lawful(workflow, log, r)
      ensures Accounts(log + [r], pending - {r.receipt}) && Grants(log + [r]) == Grants(log) && Applicable(r.grant)
    {
      LegalNext(workflow, log, r);
    }

    lemma NewHolder(pending: map<Token, Grant>, prepared: map<Key, Payload>, holder: map<Key, Token>, receipt: Token,
        g: Grant)
      requires AllHeld(pending, prepared, holder) && receipt !in pending && Applicable(g)
      ensures AllHeld(pending[receipt := g], prepared, holder)
      ensures AllHeld(pending[receipt := g], prepared[KeyOf(g) := g.payload], holder[KeyOf(g) := receipt])
    {
    }

    /** A receipt goes, and what was kept under its key. */
    lemma HolderGone(pending: map<Token, Grant>, prepared: map<Key, Payload>, holder: map<Key, Token>, receipt: Token)
      requires AllHeld(pending, prepared, holder) && receipt in pending
      ensures AllHeld(pending - {receipt}, prepared - {KeyOf(pending[receipt])}, holder)
    {
    }

    constructor (workflow: Workflow, targets: map<string, Target>, lifetime: nat)
      ensures Valid() && this.workflow == workflow && this.targets == targets && this.lifetime == lifetime
      ensures pending == map[] && prepared == map[] && log == []
    {
      this.workflow, this.targets, this.lifetime := workflow, targets, lifetime;
      pending, prepared, log, holder := map[], map[], [], map[];
    }

    function Both(): Tables
      reads this
    {
      Tables(pending, prepared)
    }

    ghost function Books(): Ledger
      reads this
    {
      Ledger(Both(), log)
    }

    /** Drops the receipts that have run out, and the plans under their keys. */
    method Prune(now: int)
      requires Valid()
      modifies `pending, `prepared, `log
      ensures Valid() && Grants(log) == Grants(old(log)) && DropsSince(old(log), log, now)
      ensures Both() == Pruned(old(Both()), Expired(old(pending), now), targets.Keys)
    {
      hide Valid, Pruned, Expired, DropsSince, Grants;
      ghost var was := Both();
      var expired := Expired(pending, now);
      var todo := expired;
      PruneNone(was, targets.Keys);
      NothingDropped(log, now);
      assert expired - todo == {};
      while todo != {}
        invariant Valid() && todo <= expired && Both() == Pruned(was, expired - todo, targets.Keys)
        invariant Grants(log) == Grants(old(log)) && DropsSince(old(log), log, now)
        decreases |todo|
      {
        var r :| r in todo;
        StillPending(was, expired - todo, targets.Keys, now, r);
        OneDropped(old(log), log, Dropped(r, pending[r], now), now);
        Drop(r, now, was, expired - todo);
        assert expired - todo + {r} == expired - (todo - {r});
        todo := todo - {r};
      }
      assert expired - todo == expired;
    }

    /** Takes one receipt out and discards the plan under its key. */
    method Drop(r: Token, now: int, ghost was: Tables, ghost gone: set<Token>)
      requires Valid() && r in pending && r !in gone && r in was.pending && Both() == Pruned(was, gone, targets.Keys)
      requires pending[r].expires <= now
      modifies `pending, `prepared, `log
      ensures Valid() && log == old(log) + [Dropped(r, old(pending)[r], now)] && Grants(log) == Grants(old(log))
      ensures Both() == Pruned(was, gone + {r}, targets.Keys)
    {
      PruneOne(was, gone, targets.Keys, r);
      var g := pending[r];
      EndCounts(log, pending, Dropped(r, g, now));
      HolderGone(pending, prepared, holder, r);
      hide Told, Accounts, AllHeld;
      ToldNext(workflow, targets, log, prepared, Dropped(r, g, now));
      log := log + [Dropped(r, g, now)];
      pending := pending - {r};
      if g.payload.target in targets {
        prepared := prepared - {KeyOf(g)};
      }
    }

    /** The authorizer is asked. */
    ghost method Note(action: Action, uid: nat, target: string, fingerprint: string, answer: bool)
      requires Valid()
      modifies `log
      ensures Valid() && log == old(log) + [Asked(action, uid, target, fingerprint, answer)]
      ensures Grants(log) == Grants(old(log))
    {
      var r := Asked(action, uid, target, fingerprint, answer);
      LegalNext(workflow, log, r);
      ToldNext(workflow, targets, log, prepared, r);
      log := log + [r];
    }

    /** Hands out a receipt. */
    method Grant(receipt: Token, g: Grant)
      requires Valid() && receipt !in Grants(log) && Applicable(g)
      modifies `pending, `log
      ensures Valid() && Grants(log).Keys == Grants(old(log)).Keys + {receipt}
      ensures log == old(log) + [Granted(receipt, g, false)] && pending == old(pending)[receipt := g]
    {
      hide Told, Accounts, AllHeld;
      GrantCounts(log, pending, receipt, g, false);
      NewHolder(pending, prepared, holder, receipt, g);
      ToldNext(workflow, targets, log, prepared, Granted(receipt, g, false));
      log := log + [Granted(receipt, g, false)];
      pending := pending[receipt := g];
    }

    /** Hands out a receipt for a plan that the backend keeps. */
    method GrantAndKeep(receipt: Token, g: Grant)
      requires Valid() && receipt !in Grants(log) && Applicable(g) && workflow != TestRun
      modifies `pending, `prepared, `log, `holder
      ensures Valid() && Grants(log).Keys == Grants(old(log)).Keys + {receipt}
      ensures log == old(log) + [Granted(receipt, g, true)] && pending == old(pending)[receipt := g]
      ensures prepared == old(prepared)[KeyOf(g) := g.payload]
    {
      hide Told, Accounts, AllHeld;
      GrantCounts(log, pending, receipt, g, true);
      NewHolder(pending, prepared, holder, receipt, g);
      ToldNext(workflow, targets, log, prepared, Granted(receipt, g, true));
      log := log + [Granted(receipt, g, true)];
      pending := pending[receipt := g];
      prepared, holder := prepared[KeyOf(g) := g.payload], holder[KeyOf(g) := receipt];
    }

    /** The backend keeps a validated plan that earned no receipt. */
    method Retain(p: Payload, uid: nat)
      requires Valid() && workflow != TestRun && p.target in targets && !MayApply(workflow, targets[p.target])
      modifies `prepared
      ensures Valid() && prepared == old(prepared)[(p.target, p.fingerprint, uid) := p]
    {
      prepared := prepared[(p.target, p.fingerprint, uid) := p];
    }

    /** What a validation comes to, from the tables and the history as they were. */
    ghost predicate Validated(p: Payload, uid: nat, receipt: Token, now: int, outcome: Validation, was: Ledger,
        next: Ledger, r: Response)
    {
      var passes := Accepts(p) && outcome.Passed?;
      var earns := passes && MayApply(workflow, targets[p.target]);
      var keeps := passes && (workflow == Adoption ==> targets[p.target].fixtureOnly)
        && (workflow == FlakeLock ==> outcome.clean);
      var g := HelperModel.Grant(uid, p, now + lifetime);
      && (r.Ok? <==> passes) && (passes ==> r.receipt == if earns then Some(receipt) else None)
      && (!Accepts(p) ==> r == Refused(Objection(p).value))
      && (Accepts(p) && !passes ==> r == Refused(if outcome.Raises? then BackendFailed else ValidationFailed))
      && next.tables.pending == (if earns then was.tables.pending[receipt := g] else was.tables.pending)
      && next.tables.prepared == (if keeps then was.tables.prepared[KeyOf(g) := p] else was.tables.prepared)
      && next.log == was.log + if earns then [Granted(receipt, g, keeps)] else []
    }

    /** Validates a plan. The receipt is new, as a random token is. */
    method Validate(p: Payload, uid: nat, receipt: Token, now: int, outcome: Validation) returns (r: Response)
      requires Valid() && workflow != TestRun && receipt !in Grants(log)
      modifies `pending, `prepared, `log, `holder
      ensures Valid() && Grants(log).Keys <= Grants(old(log)).Keys + {receipt}
      ensures Validated(p, uid, receipt, now, outcome, old(Books()), Books(), r)
    {
      hide Desk.Valid;
      var refusal := Objection(p);
      if refusal.Some? {
        return Refused(refusal.value);
      }
      if !outcome.Passed? {
        return Refused(if outcome.Raises? then BackendFailed else ValidationFailed);
      }
      var keeps := Retains(workflow, targets[p.target]) && (workflow == FlakeLock ==> outcome.clean);
      if !MayApply(workflow, targets[p.target]) {
        if keeps {
          Retain(p, uid);
        }
        return Ok(None);
      }
      if keeps {
        GrantAndKeep(receipt, HelperModel.Grant(uid, p, now + lifetime));
      } else {
        Grant(receipt, HelperModel.Grant(uid, p, now + lifetime));
      }
      r := Ok(Some(receipt));
    }

    predicate Accepts(p: Payload) {
      p.target in targets && MayValidate(workflow, targets[p.target]) && PathsAllowed(workflow, targets[p.target], p)
    }

    /** Why a payload is not even looked at. */
    function Objection(p: Payload): (r: Option<ErrorCode>)
      ensures r.None? <==> Accepts(p)
      ensures r == Some(UnknownTarget) <==> p.target !in targets
      ensures r == Some(OperationDisabled) <==> p.target in targets && !MayValidate(workflow, targets[p.target])
    {
      if p.target !in targets then Some(UnknownTarget)
      else if !MayValidate(workflow, targets[p.target]) then Some(OperationDisabled)
      else if !PathsAllowed(workflow, targets[p.target], p) then Some(PathNotAllowed)
      else None
    }

    /** What a preview comes to: the authorizer is asked for this very preview, exactly if the payload is
        acceptable. */
    ghost predicate Previewed(p: Payload, uid: nat, receipt: Token, now: int, answer: bool, passes: bool, was: Ledger,
        next: Ledger, r: Response)
    {
      var earns := Accepts(p) && answer && passes && MayApply(workflow, targets[p.target]);
      var g := HelperModel.Grant(uid, p, now + lifetime);
      && (r == Denied <==> Accepts(p) && !answer)
      && (r.Ok? <==> Accepts(p) && answer && passes) && (r.Ok? ==> r.receipt == if earns then Some(receipt) else None)
      && (!Accepts(p) ==> r == Refused(Objection(p).value))
      && (Accepts(p) && answer && !passes ==> r == Refused(BackendFailed))
      && next.tables ==
           Tables(if earns then was.tables.pending[receipt := g] else was.tables.pending, was.tables.prepared)
      && next.log == was.log + (if Accepts(p) then [Asked(PreviewAction, uid, p.target, p.fingerprint, answer)] else [])
                + if earns then [Granted(receipt, g, false)] else []
    }

    /** Previews an activation, which earns a test receipt where tests are allowed. */
    method Preview(p: Payload, uid: nat, receipt: Token, now: int, answer: bool, passes: bool) returns (r: Response)
      requires Valid() && workflow == TestRun && receipt !in Grants(log)
      modifies `pending, `log
      ensures Valid() && Grants(log).Keys <= Grants(old(log)).Keys + {receipt}
      ensures Previewed(p, uid, receipt, now, answer, passes, old(Books()), Books(), r)
    {
      var refusal := Objection(p);
      if refusal.Some? {
        return Refused(refusal.value);
      }
      Note(PreviewAction, uid, p.target, p.fingerprint, answer);
      if !answer {
        return Denied;
      }
      if !passes {
        return Refused(BackendFailed);
      }
      r := Ok(None);
      if MayApply(workflow, targets[p.target]) {
        Grant(receipt, HelperModel.Grant(uid, p, now + lifetime));
        r := Ok(Some(receipt));
      }
    }

    /** The receipt stands for a plan of this user with these names. */
    predicate Matches(pending: map<Token, Grant>, u: Use) {
      && u.receipt in pending && pending[u.receipt].uid == u.uid
      && pending[u.receipt].payload.target == u.target && pending[u.receipt].payload.fingerprint == u.fingerprint
      && (workflow == TestRun ==> pending[u.receipt].payload.system == u.system)
    }

    /** What using a receipt comes to: the authorizer is asked for this very use, exactly if the receipt is
        usable and matches, and only its yes uses the receipt up, takes the plan and calls the backend. */
    ghost predicate Applied(u: Use, now: int, answer: bool, works: bool, was: Ledger, next: Ledger,
        r: Response)
    {
      var asked := Usable(u) && Matches(was.tables.pending, u);
      && (r == Denied <==> asked && !answer)
      && (u.target !in targets ==> r == Refused(UnknownTarget))
      && (u.target in targets && !Usable(u) ==> r == Refused(OperationDisabled))
      && (Usable(u) && !asked ==> r == Refused(InvalidReceipt))
      && (!(asked && answer) ==> next.tables == was.tables)
      && (!asked ==> next.log == was.log)
      && (asked ==>
           var question := Asked(ApplyAction(workflow), u.uid, u.target, u.fingerprint, answer);
           var g := was.tables.pending[u.receipt];
           var plans := was.tables.prepared;
           var holds := workflow == TestRun || (KeyOf(g) in plans && plans[KeyOf(g)] == g.payload);
           && next.log == was.log + [question] + (if answer then [Called(u.receipt, g, now, holds)] else [])
           && (answer ==>
                && next.tables == Tables(was.tables.pending - {u.receipt}, plans - {KeyOf(g)})
                && r == if !holds then Refused(PlanMissing) else if works then Ok(None) else Refused(BackendFailed)))
    }

    /** Uses a receipt, in a request that came at `now`, when no receipt had run out. */
    method Apply(u: Use, now: int, answer: bool, works: bool) returns (r: Response)
      requires Valid() && Expired(pending, now) == {}
      modifies `pending, `prepared, `log
      ensures Valid() && Grants(log) == Grants(old(log))
      ensures Applied(u, now, answer, works, old(Books()), Books(), r)
    {
      if u.target !in targets { return Refused(UnknownTarget); }
      if !MayApply(workflow, targets[u.target]) { return Refused(OperationDisabled); }
      if !Matches(pending, u) { return Refused(InvalidReceipt); }
      Note(ApplyAction(workflow), u.uid, u.target, u.fingerprint, answer);
      if !answer {
        return Denied;
      }
      var holds := CallBackend(u.receipt, now);
      r := if !holds then Refused(PlanMissing) else if works then Ok(None) else Refused(BackendFailed);
    }

    /** What a request comes to at this desk, from the tables and the history as they were. */
    ghost predicate Answered(q: Request, uid: nat, token: Token, now: int, was: Ledger, next: Ledger,
        r: Response)
    {
      match q
      case ValidateIt(_, payload, outcome) => Validated(payload, uid, token, now, outcome, was, next, r)
      case PreviewIt(payload, allowed, passes) => Previewed(payload, uid, token, now, allowed, passes, was, next, r)
      case ApplyIt(_, use, answer, works) => Applied(use.(uid := uid), now, answer, works, was, next, r)
    }

    /** The request that concerns this desk. */
    method Answer(q: Request, uid: nat, token: Token, now: int) returns (r: Response)
      requires Valid() && Concerns(q) == workflow && (q.ValidateIt? ==> workflow != TestRun)
      requires token !in Grants(log) && Expired(pending, now) == {}
      modifies this
      ensures Valid() && Grants(log).Keys <= Grants(old(log)).Keys + {token}
      ensures Answered(q, uid, token, now, old(Books()), Books(), r)
    {
      hide Valid, Validated, Previewed, Applied;
      match q {
        case ValidateIt(_, payload, outcome) =>
          r := Validate(payload, uid, token, now, outcome);
        case PreviewIt(payload, allowed, passes) =>
          r := Preview(payload, uid, token, now, allowed, passes);
        case ApplyIt(_, use, answer, works) =>
          r := Apply(use.(uid := uid), now, answer, works);
      }
    }

    predicate Usable(u: Use) {
      u.target in targets && MayApply(workflow, targets[u.target])
    }

    /** The receipt is gone before the backend is called, and the plan with it, whatever it does. */
    method CallBackend(receipt: Token, now: int) returns (holds: bool)
      requires Valid() && receipt in pending && Expired(pending, now) == {}
      requires log != [] && log[|log| - 1] == Asked(ApplyAction(workflow), pending[receipt].uid,
        pending[receipt].payload.target, pending[receipt].payload.fingerprint, true)
      modifies `pending, `prepared, `log
      ensures Valid() && pending == old(pending) - {receipt} && Grants(log) == Grants(old(log))
      ensures var g := old(pending)[receipt];
        && holds == (workflow == TestRun || (KeyOf(g) in old(prepared) && old(prepared)[KeyOf(g)] == g.payload))
        && prepared == old(prepared) - {KeyOf(g)} && log == old(log) + [Called(receipt, g, now, holds)]
    {
      var g := pending[receipt];
      holds := workflow == TestRun || (KeyOf(g) in prepared && prepared[KeyOf(g)] == g.payload);
      assert g.expires > now by { assert receipt !in Expired(pending, now); }
      EndCounts(log, pending, Called(receipt, g, now, holds));
      HolderGone(pending, prepared, holder, receipt);
      hide Told, Accounts, AllHeld;
      ToldNext(workflow, targets, log, prepared, Called(receipt, g, now, holds));
      log := log + [Called(receipt, g, now, holds)];
      pending := pending - {receipt};
      prepared := prepared - {KeyOf(g)};
    }
  }

  /** The history grew by receipts that had run out by then. */
  predicate DropsSince(before: seq<Record>, after: seq<Record>, now: int) {
    before <= after && forall k :: |before| <= k < |after| ==> after[k].Dropped? && after[k].at == now
  }

  lemma NothingDropped(log: seq<Record>, now: int)
    ensures DropsSince(log, log, now)
  {
  }

  lemma OneDropped(before: seq<Record>, after: seq<Record>, r: Record, now: int)
    requires DropsSince(before, after, now) && r.Dropped? && r.at == now
    ensures DropsSince(before, after + [r], now)
  {
  }

  /** What the backend's validation came to; `clean` says that its working copy is gone. */
  datatype Validation = Passed(clean: bool) | NotPassed | Raises

  /** A request to use a receipt. */
  datatype Use = Use(receipt: Token, target: string, fingerprint: string, system: string, uid: nat)

  datatype Request =
    | ValidateIt(w: Workflow, payload: Payload, outcome: Validation)
    | PreviewIt(preview: Payload, allowed: bool, passes: bool)
    | ApplyIt(w: Workflow, use: Use, answer: bool, works: bool)

  function Concerns(q: Request): Workflow {
    match q
    case ValidateIt(w, _, _) => w
    case PreviewIt(_, _, _) => TestRun
    case ApplyIt(w, _, _, _) => w
  }

  const WORKFLOWS: seq<Workflow> := [Adoption, HomeManager, Managed, FlakeLock, TestRun]

  /** The place of a workflow's desk; tables are pruned in this order. */
  function Place(w: Workflow): (i: nat)
    ensures i < 5 && WORKFLOWS[i] == w
  {
    match w
    case Adoption => 0
    case HomeManager => 1
    case Managed => 2
    case FlakeLock => 3
    case TestRun => 4
  }

  ghost function Ledgers(desks: seq<Desk>): (ledgers: seq<Ledger>)
    reads desks
    ensures |ledgers| == |desks| && forall i :: 0 <= i < |desks| ==> ledgers[i] == desks[i].Books()
  {
    seq(|desks|, i requires 0 <= i < |desks| reads desks => desks[i].Books())
  }

  ghost predicate AllValid(desks: seq<Desk>)
    reads desks
  {
    && |desks| == 5 && (forall i :: 0 <= i < 5 ==> desks[i].workflow == WORKFLOWS[i])
    && (forall i, j :: 0 <= i < j < 5 ==> desks[i] != desks[j])
    && (forall i :: 0 <= i < 5 ==> desks[i].Valid())
  }

  /** The dispatcher: a desk for each workflow. */
  class Dispatcher {
    const desks: seq<Desk>
    /** Stands for the random generator: tokens from here on were never drawn. */
    var drawn: Token

    ghost predicate Valid()
      reads this, desks
    {
      AllValid(desks) && forall i, r :: 0 <= i < 5 && r in Grants(desks[i].log) ==> r < drawn
    }

    constructor (targets: map<string, Target>, lifetime: nat)
      ensures Valid() && fresh(desks)
      ensures forall i :: 0 <= i < 5 ==>
        desks[i].log == [] && desks[i].targets == targets && desks[i].lifetime == lifetime
    {
      var ds: seq<Desk> := [];
      for k := 0 to 5
        invariant |ds| == k && fresh(ds)
        invariant forall i :: 0 <= i < k ==> ds[i].Valid() && ds[i].workflow == WORKFLOWS[i] && ds[i].log == []
        invariant forall i :: 0 <= i < k ==> ds[i].targets == targets && ds[i].lifetime == lifetime
        invariant forall i, j :: 0 <= i < j < k ==> ds[i] != ds[j]
      {
        var d := new Desk(WORKFLOWS[k], targets, lifetime);
        ds := ds + [d];
      }
      desks, drawn := ds, 0;
    }

    /** Every table loses what has run out, at the beginning of each request. */
    method PruneAll(now: int)
      requires AllValid(desks)
      modifies desks
      ensures AllValid(desks)
      ensures forall i :: 0 <= i < 5 ==>
        DropsSince(old(desks[i].log), desks[i].log, now) && Grants(desks[i].log) == Grants(old(desks[i].log))
      ensures forall i :: 0 <= i < 5 ==>
        desks[i].Both() == Pruned(old(desks[i].Both()), Expired(old(desks[i].pending), now), desks[i].targets.Keys)
    {
      hide Desk.Valid, Pruned, Expired, DropsSince, Grants;
      for i := 0 to |desks|
        invariant AllValid(desks)
        invariant forall j :: 0 <= j < i ==>
          && DropsSince(old(desks[j].log), desks[j].log, now) && Grants(desks[j].log) == Grants(old(desks[j].log))
          && desks[j].Both() == Pruned(old(desks[j].Both()), Expired(old(desks[j].pending), now), desks[j].targets.Keys)
        invariant forall j :: i <= j < 5 ==> unchanged(desks[j])
      {
        desks[i].Prune(now);
      }
    }

    /** The desk that a request concerns answers it; the others do not move. */
    method Pass(q: Request, uid: nat, now: int) returns (r: Response)
      requires Valid() && (q.ValidateIt? ==> q.w != TestRun)
      requires Expired(desks[Place(Concerns(q))].pending, now) == {}
      modifies `drawn, desks[Place(Concerns(q))]
      ensures Valid() && drawn > old(drawn)
      ensures var d := desks[Place(Concerns(q))];
        d.Answered(q, uid, old(drawn), now, old(d.Books()), d.Books(), r)
      ensures forall i :: 0 <= i < 5 && i != Place(Concerns(q)) ==> desks[i].Books() == old(desks[i].Books())
    {
      hide Desk.Answered;
      var token := drawn;
      drawn := drawn + 1;
      r := desks[Place(Concerns(q))].Answer(q, uid, token, now);
    }

    /** One request: every table is pruned, and the desk that it concerns answers it. A use of a receipt is
        denied exactly when the target can be applied to, the receipt is pending for this user and these names
        and has not run out, and the authorizer says no. */
    method Handle(q: Request, uid: nat, now: int) returns (r: Response)
      requires Valid() && (q.ValidateIt? ==> q.w != TestRun)
      modifies `drawn, desks
      ensures Valid() && drawn > old(drawn)
      ensures forall i :: 0 <= i < 5 ==>
        AddedBy(WORKFLOWS[i], desks[i].lifetime, old(desks[i].log), desks[i].log, Arrival(q, uid, now))
      ensures forall i :: 0 <= i < 5 && (r == Denied || i != Place(Concerns(q))) ==>
        desks[i].Both() == Pruned(old(desks[i].Both()), Expired(old(desks[i].pending), now), desks[i].targets.Keys)
      ensures Turn(desks, Arrival(q, uid, now), old(drawn), old(Ledgers(desks)), Ledgers(desks), r)
      ensures var d := desks[Place(Concerns(q))];
        q.ApplyIt? ==>
          (r == Denied <==>
            && d.Usable(q.use) && d.Matches(old(d.pending), q.use.(uid := uid))
            && old(d.pending)[q.use.receipt].expires > now && !q.answer)
    {
      PruneAll(now);
      ghost var d, middle := desks[Place(Concerns(q))], Ledgers(desks);
      r := Pass(q, uid, now);
      assert d.Answered(q, uid, old(drawn), now, middle[Place(Concerns(q))], d.Books(), r);
      HandledAdds(d, Arrival(q, uid, now), old(drawn), old(d.Books()), d.Books(), r);
      forall i | 0 <= i < 5 && i != Place(Concerns(q))
        ensures AddedBy(WORKFLOWS[i], desks[i].lifetime, old(desks[i].log), desks[i].log, Arrival(q, uid, now))
      {
        DropsAdd(WORKFLOWS[i], desks[i].lifetime, old(desks[i].log), desks[i].log, Arrival(q, uid, now));
      }
    }
  }

  /** What has run out is dropped. */
  ghost predicate Cleared(d: Desk, now: int, was: Ledger, next: Ledger) {
    && DropsSince(was.log, next.log, now)
    && next.tables == Pruned(was.tables, Expired(was.tables.pending, now), d.targets.Keys)
  }

  /** What a request comes to at the desk that it concerns: what has run out is dropped, then it is answered. */
  ghost predicate Handled(d: Desk, a: Arrival, token: Token, was: Ledger, next: Ledger, r: Response) {
    exists middle ::
      Cleared(d, a.now, was, middle) && d.Answered(a.request, a.uid, token, a.now, middle, next, r)
  }

  /** What a request comes to: the desk that it concerns answers it, and the others drop what has run out. */
  ghost predicate Turn(desks: seq<Desk>, a: Arrival, token: Token, was: seq<Ledger>, next: seq<Ledger>, r: Response) {
    |desks| == |was| == |next| == 5
    && forall i :: 0 <= i < 5 ==>
         if i == Place(Concerns(a.request)) then Handled(desks[i], a, token, was[i], next[i], r)
         else Cleared(desks[i], a.now, was[i], next[i])
  }

  /** One request of a run: what, who and when. Only four workflows have a validation request. */
  datatype Arrival = Arrival(request: Request, uid: nat, now: int)

  /** The request asks the authorizer this question, and this is its answer. */
  predicate Asks(w: Workflow, q: Request, action: Action, target: string, fingerprint: string, answer: bool) {
    match q
    case ValidateIt(_, _, _) => false
    case PreviewIt(p, allowed, _) =>
      && w == TestRun && action == PreviewAction && target == p.target && fingerprint == p.fingerprint
      && answer == allowed
    case ApplyIt(v, use, yes, _) =>
      && v == w && action == ApplyAction(w) && target == use.target && fingerprint == use.fingerprint && answer == yes
  }

  /** The request submits this payload, and it passes. */
  predicate Submits(w: Workflow, q: Request, p: Payload) {
    match q
    case ValidateIt(v, payload, outcome) => v == w && payload == p && outcome.Passed?
    case PreviewIt(payload, allowed, passes) => w == TestRun && payload == p && allowed && passes
    case ApplyIt(_, _, _, _) => false
  }

  /** The request uses this receipt, with the authorizer's yes. */
  predicate Uses(w: Workflow, q: Request, receipt: Token, p: Payload) {
    && q.ApplyIt? && q.w == w && q.answer && q.use.receipt == receipt
    && q.use.target == p.target && q.use.fingerprint == p.fingerprint
    && (w == TestRun ==> q.use.system == p.system)
  }

  /** The record stands for what this request of this user came to: a receipt for the payload that passed, a
      question with its own answer, a use that was agreed to, or what had run out when it came. */
  predicate StandsFor(w: Workflow, lifetime: nat, a: Arrival, r: Record) {
    match r
    case Granted(_, g, _) => g.uid == a.uid && g.expires == a.now + lifetime && Submits(w, a.request, g.payload)
    case Dropped(_, _, at) => at == a.now
    case Asked(action, uid, target, fingerprint, answer) =>
      uid == a.uid && Asks(w, a.request, action, target, fingerprint, answer)
    case Called(receipt, g, at, _) => g.uid == a.uid && at == a.now && Uses(w, a.request, receipt, g.payload)
  }

  /** Each record of a desk stands for the request that it came from, and requests come one after the other. */
  ghost predicate Traced(w: Workflow, lifetime: nat, log: seq<Record>, arrivals: seq<Arrival>, origin: seq<nat>) {
    && |origin| == |log|
    && (forall k :: 0 <= k < |log| ==> origin[k] < |arrivals| && StandsFor(w, lifetime, arrivals[origin[k]], log[k]))
    && forall i, j :: 0 <= i < j < |origin| ==> origin[i] <= origin[j]
  }

  /** What one request added stands for it. */
  ghost predicate AddedBy(w: Workflow, lifetime: nat, before: seq<Record>, after: seq<Record>, a: Arrival) {
    before <= after && forall k :: |before| <= k < |after| ==> StandsFor(w, lifetime, a, after[k])
  }

  lemma HandledAdds(d: Desk, a: Arrival, token: Token, was: Ledger, next: Ledger, r: Response)
    requires Concerns(a.request) == d.workflow && (a.request.ValidateIt? ==> a.request.w != TestRun)
    requires Handled(d, a, token, was, next, r)
    ensures AddedBy(d.workflow, d.lifetime, was.log, next.log, a)
  {
    hide Pruned, Expired, MayApply, MayValidate, PathsAllowed, Desk.Objection;
    var middle :|
      Cleared(d, a.now, was, middle) && d.Answered(a.request, a.uid, token, a.now, middle, next, r);
  }

  lemma TracedNext(w: Workflow, lifetime: nat, before: seq<Record>, after: seq<Record>, arrivals: seq<Arrival>, k: nat,
      origin: seq<nat>) returns (next: seq<nat>)
    requires k < |arrivals| && Traced(w, lifetime, before, arrivals[..k], origin)
    requires AddedBy(w, lifetime, before, after, arrivals[k])
    ensures Traced(w, lifetime, after, arrivals[..k + 1], next)
  {
    next := origin + seq(|after| - |before|, _ => k);
    forall i | 0 <= i < |after| ensures StandsFor(w, lifetime, arrivals[..k + 1][next[i]], after[i]) {
      if i < |before| {
        assert arrivals[..k][origin[i]] == arrivals[..k + 1][next[i]] && after[i] == before[i];
      }
    }
  }

  ghost predicate AllTraced(desks: seq<Desk>, arrivals: seq<Arrival>, origins: seq<seq<nat>>)
    requires |desks| == 5
    reads desks
  {
    |origins| == 5 && forall i :: 0 <= i < 5 ==>
      Traced(WORKFLOWS[i], desks[i].lifetime, desks[i].log, arrivals, origins[i])
  }

  /** The next of them. */
  method One(d: Dispatcher, arrivals: seq<Arrival>, k: nat, ghost before: seq<seq<nat>>)
    returns (r: Response, ghost origins: seq<seq<nat>>)
    requires d.Valid() && k < |arrivals| && (arrivals[k].request.ValidateIt? ==> arrivals[k].request.w != TestRun)
    requires AllTraced(d.desks, arrivals[..k], before)
    modifies d, d.desks
    ensures d.Valid() && AllTraced(d.desks, arrivals[..k + 1], origins) && d.drawn > old(d.drawn)
    ensures Turn(d.desks, arrivals[k], old(d.drawn), old(Ledgers(d.desks)), Ledgers(d.desks), r)
  {
    hide Turn, AddedBy, Traced, Desk.Valid, Desk.Matches, Desk.Usable, Pruned, Expired;
    ghost var was := Ledgers(d.desks);
    r := d.Handle(arrivals[k].request, arrivals[k].uid, arrivals[k].now);
    origins := AllTracedNext(d.desks, was, arrivals, k, before);
  }

  lemma AllTracedNext(desks: seq<Desk>, was: seq<Ledger>, arrivals: seq<Arrival>, k: nat, before: seq<seq<nat>>)
    returns (origins: seq<seq<nat>>)
    requires |desks| == |was| == |before| == 5 && k < |arrivals|
    requires forall i :: 0 <= i < 5 ==> Traced(WORKFLOWS[i], desks[i].lifetime, was[i].log, arrivals[..k], before[i])
    requires forall i :: 0 <= i < 5 ==> AddedBy(WORKFLOWS[i], desks[i].lifetime, was[i].log, desks[i].log, arrivals[k])
    ensures AllTraced(desks, arrivals[..k + 1], origins)
  {
    hide Traced, AddedBy;
    origins := [];
    for i := 0 to 5
      invariant |origins| == i
      invariant forall j :: 0 <= j < i ==>
        Traced(WORKFLOWS[j], desks[j].lifetime, desks[j].log, arrivals[..k + 1], origins[j])
    {
      var next := TracedNext(WORKFLOWS[i], desks[i].lifetime, was[i].log, desks[i].log, arrivals, k, before[i]);
      origins := origins + [next];
    }
  }

  lemma DropsAdd(w: Workflow, lifetime: nat, before: seq<Record>, after: seq<Record>, a: Arrival)
    requires DropsSince(before, after, a.now)
    ensures AddedBy(w, lifetime, before, after, a)
  {
  }

  /** The requests were handled one after the other, each with a token that was never drawn before: `states` is
      the desks' tables and histories before the first and after each of them. */
  ghost predicate Served(desks: seq<Desk>, arrivals: seq<Arrival>, responses: seq<Response>, tokens: seq<Token>,
      states: seq<seq<Ledger>>)
  {
    && |responses| == |tokens| == |arrivals| && |states| == |arrivals| + 1
    && (forall i, j :: 0 <= i < j < |tokens| ==> tokens[i] < tokens[j])
    && forall k :: 0 <= k < |arrivals| ==>
         Turn(desks, arrivals[k], tokens[k], states[k], states[k + 1], responses[k])
  }

  lemma ServedOneMore(desks: seq<Desk>, arrivals: seq<Arrival>, a: Arrival, responses: seq<Response>, r: Response,
      tokens: seq<Token>, token: Token, states: seq<seq<Ledger>>, next: seq<Ledger>)
    requires Served(desks, arrivals, responses, tokens, states) && (forall t <- tokens :: t < token)
    requires Turn(desks, a, token, states[|arrivals|], next, r)
    ensures Served(desks, arrivals + [a], responses + [r], tokens + [token], states + [next])
  {
    hide Turn;
    forall i, j | 0 <= i < j <= |tokens| ensures (tokens + [token])[i] < (tokens + [token])[j] {
      assert tokens[i] in tokens;
    }
    forall k | 0 <= k <= |arrivals|
      ensures Turn(desks, (arrivals + [a])[k], (tokens + [token])[k], (states + [next])[k], (states + [next])[k + 1],
        (responses + [r])[k])
    {
    }
  }

  /** Any requests by any users at any times, each of them answered in its turn. Each desk's history stays legal,
      and every record in it stands for the request that it came from; every prepared plan of a target that
      allows applying has a pending receipt. */
  method Serve(d: Dispatcher, arrivals: seq<Arrival>)
    returns (responses: seq<Response>, ghost tokens: seq<Token>, ghost states: seq<seq<Ledger>>,
      ghost origins: seq<seq<nat>>)
    requires d.Valid() && forall a <- arrivals :: a.request.ValidateIt? ==> a.request.w != TestRun
    requires forall i :: 0 <= i < 5 ==> d.desks[i].log == []
    modifies d, d.desks
    ensures d.Valid() && AllTraced(d.desks, arrivals, origins)
    ensures forall i :: 0 <= i < 5 ==> Legal(WORKFLOWS[i], d.desks[i].log) && Coupled(d.desks[i])
    ensures Served(d.desks, arrivals, responses, tokens, states)
    ensures states[0] == old(Ledgers(d.desks)) && states[|arrivals|] == Ledgers(d.desks)
  {
    hide Served, Turn, Traced, Desk.Valid, Coupled;
    responses, tokens, states, origins := [], [], [Ledgers(d.desks)], [[], [], [], [], []];
    NoneServed(d.desks, states[0]);
    NoneTraced(d.desks);
    for k := 0 to |arrivals|
      invariant d.Valid() && AllTraced(d.desks, arrivals[..k], origins) && (forall t <- tokens :: t < d.drawn)
      invariant |states| == k + 1 && states[0] == old(Ledgers(d.desks)) && states[k] == Ledgers(d.desks)
      invariant Served(d.desks, arrivals[..k], responses, tokens, states)
    {
      ghost var token := d.drawn;
      var r;
      r, origins := One(d, arrivals, k, origins);
      ServedOneMore(d.desks, arrivals[..k], arrivals[k], responses, r, tokens, token, states, Ledgers(d.desks));
      assert arrivals[..k] + [arrivals[k]] == arrivals[..k + 1];
      responses, tokens, states := responses + [r], tokens + [token], states + [Ledgers(d.desks)];
    }
    assert arrivals[..|arrivals|] == arrivals;
    AllCoupled(d.desks);
  }

  lemma AllCoupled(desks: seq<Desk>)
    requires AllValid(desks)
    ensures forall i :: 0 <= i < 5 ==> Legal(WORKFLOWS[i], desks[i].log) && Coupled(desks[i])
  {
  }

  lemma NoneTraced(desks: seq<Desk>)
    requires |desks| == 5 && forall i :: 0 <= i < 5 ==> desks[i].log == []
    ensures AllTraced(desks, [], [[], [], [], [], []])
  {
  }

  lemma NoneServed(desks: seq<Desk>, state: seq<Ledger>)
    ensures Served(desks, [], [], [], [state])
  {
  }

  /** The backend is called only where the target's own switches allow it, and for a plan that touches only
      allowed files; managed plans touch at most the two managed ones. */
  lemma CallIsAllowed(d: Desk, k: nat)
    requires d.Valid() && k < |d.log| && d.log[k].Called?
    ensures var p := d.log[k].grant.payload;
      && p.target in d.targets
      && var t := d.targets[p.target];
         && (d.workflow == Adoption ==> t.applyEnabled)
         && (d.workflow == HomeManager ==> (t.fixtureOnly && t.applyEnabled) || t.homeManagerApplyEnabled)
         && (d.workflow == Managed ==> t.managedWriteEnabled && p.paths <= {"ncm/state.json", "ncm/packages.nix"})
         && (d.workflow == FlakeLock ==> t.flakeLockWriteEnabled)
         && (d.workflow == TestRun ==>
              t.testActivationEnabled && !t.fixtureOnly && !t.applyEnabled && !t.homeManagerApplyEnabled)
         && (d.workflow != FlakeLock ==> p.paths <= t.allowed)
  {
    LegalPrefix(d.workflow, d.log, k);
    var granted := CallHasGrant(d.workflow, d.log, k);
    GrantRecorded(d.workflow, d.log, granted);
    assert d.Applicable(Grants(d.log)[d.log[k].receipt]);
  }

  /** Which payloads a desk looks at, and why it refuses the others. */
  lemma ObjectsExactly(d: Desk, p: Payload)
    ensures d.Objection(p) == Some(UnknownTarget) <==> p.target !in d.targets
    ensures p.target in d.targets ==>
      var t := d.targets[p.target];
      var enabled :=
        && (d.workflow == HomeManager ==> (t.fixtureOnly && t.applyEnabled) || t.homeManagerApplyEnabled)
        && (d.workflow == Managed ==> t.managedWriteEnabled)
        && (d.workflow == FlakeLock ==> t.flakeLockWriteEnabled)
        && (d.workflow == TestRun ==> !(t.fixtureOnly || t.applyEnabled || t.homeManagerApplyEnabled));
      var paths :=
        && (d.workflow != FlakeLock ==> p.paths <= t.allowed)
        && (d.workflow == Managed ==> forall path <- p.paths :: path in ["ncm/packages.nix", "ncm/state.json"]);
      d.Objection(p) == if !enabled then Some(OperationDisabled) else if !paths then Some(PathNotAllowed) else None
  {
    assert d.workflow == Managed && p.target in d.targets ==>
      (p.paths <= MANAGED_PATHS <==> forall path <- p.paths :: path in ["ncm/packages.nix", "ncm/state.json"]);
  }

  /** A receipt is used by naming what it stands for: the names of the payload that earned it, and its user; the
      system only where it was previewed. */
  lemma MatchesExactly(d: Desk, u: Use, g: HelperModel.Grant)
    requires u.receipt in d.pending && d.pending[u.receipt] == g
    ensures d.Matches(d.pending, u) <==>
      (u.uid, u.target, u.fingerprint, if d.workflow == TestRun then u.system else g.payload.system) ==
        (g.uid, g.payload.target, g.payload.fingerprint, g.payload.system)
    ensures d.Usable(u) <==> u.target in d.targets && match d.workflow
      case Adoption => d.targets[u.target].applyEnabled
      case HomeManager =>
        var t := d.targets[u.target];
        (t.fixtureOnly && t.applyEnabled) || t.homeManagerApplyEnabled
      case Managed => d.targets[u.target].managedWriteEnabled
      case FlakeLock => d.targets[u.target].flakeLockWriteEnabled
      case TestRun => d.targets[u.target].testActivationEnabled
  {
  }

  /** Each backend call goes back to two requests of its user: first one whose payload passed, and then one that
      uses the receipt for that very payload, within its lifetime, and that the authorizer agreed to. */
  lemma CallHasRequests(w: Workflow, lifetime: nat, log: seq<Record>, arrivals: seq<Arrival>, origin: seq<nat>, k: nat)
    returns (i: nat, j: nat)
    requires Legal(w, log) && Traced(w, lifetime, log, arrivals, origin) && k < |log| && log[k].Called?
    ensures i < j < |arrivals| && arrivals[i].uid == arrivals[j].uid == log[k].grant.uid
    ensures Submits(w, arrivals[i].request, log[k].grant.payload)
    ensures Uses(w, arrivals[j].request, log[k].receipt, log[k].grant.payload)
    ensures arrivals[j].now < arrivals[i].now + lifetime
  {
    var granted := CallHasGrant(w, log, k);
    i, j := origin[granted], origin[k];
    assert StandsFor(w, lifetime, arrivals[i], log[granted]) && StandsFor(w, lifetime, arrivals[j], log[k]);
  }

  /** Every prepared plan of a target that allows applying has a pending receipt for that very plan. */
  ghost predicate Coupled(d: Desk)
    reads d
  {
    forall k <- d.prepared :: k.0 in d.targets && MayApply(d.workflow, d.targets[k.0]) ==>
      exists r <- d.pending :: KeyOf(d.pending[r]) == k && d.pending[r].payload == d.prepared[k]
  }

  /** The plan that came with a receipt is in the table exactly when, since then, no receipt of its key ran
      out or was used and no other plan was kept under the key, unless the same plan was kept again. */
  lemma ReceiptKeepsItsPlan(desk: Desk, i: nat)
    requires desk.Valid() && i < |desk.log| && desk.log[i].Granted? && desk.log[i].kept
    ensures var g := desk.log[i].grant; var k := KeyOf(g);
      k in desk.prepared && desk.prepared[k] == g.payload <==> !LostSince(desk.log, i, k, g.payload)
  {
    var k := KeyOf(desk.log[i].grant);
    GrantRecorded(desk.workflow, desk.log, i);
    KeptExactly(desk.log, i);
    assert desk.Applicable(desk.log[i].grant);
    assert PlanUnder(desk.log, k) == if k in desk.prepared then Some(desk.prepared[k]) else None;
  }

  /** A pending receipt that is alone under its key still has its plan. */
  lemma LoneReceiptHasItsPlan(desk: Desk, i: nat)
    requires desk.Valid() && i < |desk.log| && desk.log[i].Granted? && desk.log[i].kept
    requires desk.log[i].receipt in desk.pending
    requires forall j :: 0 <= j < |desk.log| && j != i && desk.log[j].Granted? ==>
      KeyOf(desk.log[j].grant) != KeyOf(desk.log[i].grant)
    ensures var g := desk.log[i].grant; KeyOf(g) in desk.prepared && desk.prepared[KeyOf(g)] == g.payload
  {
    AloneIsKept(desk.workflow, desk.log, i);
    ReceiptKeepsItsPlan(desk, i);
  }

  /** Of two receipts for one plan, the older runs out and takes the plan along. */
  method ReceiptCanOutliveItsPlan(desk: Desk, p: Payload)
    requires desk.Valid() && desk.workflow == Adoption
    requires desk.pending == map[] && desk.prepared == map[] && desk.log == []
    requires desk.Accepts(p) && desk.targets[p.target].fixtureOnly && desk.targets[p.target].applyEnabled
    modifies desk
    ensures desk.Valid() && desk.pending == map[1 := Grant(0, p, 1 + desk.lifetime)] && desk.prepared == map[]
  {
    hide Desk.Valid;
    TwoReceipts(desk, p);
    desk.Prune(desk.lifetime);
    var key := (p.target, p.fingerprint, 0);
    var both := map[0 := Grant(0, p, desk.lifetime), 1 := Grant(0, p, 1 + desk.lifetime)];
    assert KeysOf(both, {0}, desk.targets.Keys) == {key};
  }

  /** A plan that passes at a target of fixtures which allows applying earns a receipt and is kept. */
  method OneReceipt(desk: Desk, p: Payload, receipt: Token, now: int)
    requires desk.Valid() && desk.workflow == Adoption && desk.Accepts(p) && receipt !in Grants(desk.log)
    requires desk.targets[p.target].fixtureOnly && desk.targets[p.target].applyEnabled
    modifies desk
    ensures desk.Valid() && Grants(desk.log).Keys <= Grants(old(desk.log)).Keys + {receipt}
    ensures desk.pending == old(desk.pending)[receipt := Grant(0, p, now + desk.lifetime)]
    ensures desk.prepared == old(desk.prepared)[(p.target, p.fingerprint, 0) := p]
  {
    hide Desk.Valid, Grants;
    var r := desk.Validate(p, 0, receipt, now, Passed(true));
  }

  method TwoReceipts(desk: Desk, p: Payload)
    requires desk.Valid() && desk.workflow == Adoption
    requires desk.pending == map[] && desk.prepared == map[] && desk.log == []
    requires desk.Accepts(p) && desk.targets[p.target].fixtureOnly && desk.targets[p.target].applyEnabled
    modifies desk
    ensures desk.Valid() && desk.prepared == map[(p.target, p.fingerprint, 0) := p]
    ensures desk.pending == map[0 := Grant(0, p, desk.lifetime), 1 := Grant(0, p, 1 + desk.lifetime)]
  {
    assert Grants(desk.log) == map[];
    hide Desk.Valid, Grants, Desk.Accepts;
    OneReceipt(desk, p, 0, 0);
    OneReceipt(desk, p, 1, 1);
  }
}
