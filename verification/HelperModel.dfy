/** Requests to the privileged helper, its targets, and the law its history keeps. */
module HelperModel {
  import opened Basics

  datatype Workflow = Adoption | HomeManager | Managed | FlakeLock | TestRun

  datatype Target = Target(id: string, fixtureOnly: bool, applyEnabled: bool, homeManagerApplyEnabled: bool,
    managedWriteEnabled: bool, flakeLockWriteEnabled: bool, testActivationEnabled: bool, allowed: set<string>)

  /** A plan as a client submits it: the fingerprint it claims, the paths it touches, the system it names,
      and everything else. */
  datatype Payload = Payload(target: string, fingerprint: string, paths: set<string>, system: string, content: string)

  datatype Action = ApplyAction(w: Workflow) | PreviewAction

  datatype ErrorCode = UnknownTarget | OperationDisabled | PathNotAllowed | InvalidReceipt
    | ValidationFailed | BackendFailed | PlanMissing

  datatype Response = Ok(receipt: Option<Token>) | Refused(code: ErrorCode) | Denied

  /** Receipts are random tokens; all that counts is that no two are the same. */
  type Token = nat

  /** What a validation receipt stands for. */
  datatype Grant = Grant(uid: nat, payload: Payload, expires: int)

  /** A receipt handed out, with its plan kept by the backend or not; a receipt that has run out and is
      dropped; a question to the authorizer; or a call of the backend, which still held the very plan or
      did not. */
  datatype Record =
    | Granted(receipt: Token, grant: Grant, kept: bool)
    | Dropped(receipt: Token, grant: Grant, at: int)
    | Asked(action: Action, uid: nat, target: string, fingerprint: string, answer: bool)
    | Called(receipt: Token, grant: Grant, at: int, done: bool)

  /** The table of validated plans is keyed by these. */
  type Key = (string, string, nat)

  function KeyOf(g: Grant): Key {
    (g.payload.target, g.payload.fingerprint, g.uid)
  }

  /** The receipts that have run out. */
  function Expired(pending: map<Token, Grant>, now: int): set<Token> {
    set r | r in pending && pending[r].expires <= now
  }

  /** The keys of these receipts at known targets. */
  function KeysOf(pending: map<Token, Grant>, receipts: set<Token>, targets: set<string>): set<Key> {
    set r | r in receipts && r in pending && pending[r].payload.target in targets :: KeyOf(pending[r])
  }

  /** The two tables of a desk. */
  datatype Tables = Tables(pending: map<Token, Grant>, prepared: map<Key, Payload>)

  /** The tables without these receipts and the plans under their keys. */
  function Pruned(t: Tables, receipts: set<Token>, targets: set<string>): Tables {
    Tables(t.pending - receipts, t.prepared - KeysOf(t.pending, receipts, targets))
  }

  lemma PruneNone(t: Tables, targets: set<string>)
    ensures Pruned(t, {}, targets) == t
  {
    assert KeysOf(t.pending, {}, targets) == {};
  }

  lemma StillPending(t: Tables, receipts: set<Token>, targets: set<string>, now: int, r: Token)
    requires r in Expired(t.pending, now) && r !in receipts
    ensures r in t.pending && t.pending[r].expires <= now
    ensures r in Pruned(t, receipts, targets).pending && Pruned(t, receipts, targets).pending[r] == t.pending[r]
  {
  }

  lemma PruneOne(t: Tables, receipts: set<Token>, targets: set<string>, r: Token)
    requires r in t.pending && r !in receipts
    ensures var p := Pruned(t, receipts, targets);
      var key := if t.pending[r].payload.target in targets then {KeyOf(t.pending[r])} else {};
      Pruned(t, receipts + {r}, targets) == Tables(p.pending - {r}, p.prepared - key)
  {
    assert t.pending - (receipts + {r}) == t.pending - receipts - {r};
    var key := if t.pending[r].payload.target in targets then {KeyOf(t.pending[r])} else {};
    assert KeysOf(t.pending, receipts + {r}, targets) == KeysOf(t.pending, receipts, targets) + key;
  }

  predicate MayValidate(w: Workflow, t: Target) {
    match w
    case Adoption => true
    case HomeManager => (t.fixtureOnly && t.applyEnabled) || t.homeManagerApplyEnabled
    case Managed => t.managedWriteEnabled
    case FlakeLock => t.flakeLockWriteEnabled
    case TestRun => !t.fixtureOnly && !t.applyEnabled && !t.homeManagerApplyEnabled
  }

  /** A validation earns a receipt, and a receipt can be used. */
  predicate MayApply(w: Workflow, t: Target) {
    match w
    case Adoption => t.applyEnabled
    case TestRun => t.testActivationEnabled
    case _ => MayValidate(w, t)
  }

  const MANAGED_PATHS: set<string> := {"ncm/state.json", "ncm/packages.nix"}

  predicate PathsAllowed(w: Workflow, t: Target, p: Payload) {
    match w
    case FlakeLock => true
    case Managed => p.paths <= MANAGED_PATHS && p.paths <= t.allowed
    case _ => p.paths <= t.allowed
  }

  /** The backend that serves the target keeps validated plans. */
  predicate Retains(w: Workflow, t: Target) {
    match w
    case Adoption => t.fixtureOnly
    case TestRun => false
    case _ => true
  }

  function Grants(log: seq<Record>): map<Token, Grant> {
    if log == [] then map[] else
      var before := Grants(log[..|log| - 1]);
      var last := log[|log| - 1];
      if last.Granted? then before[last.receipt := last.grant] else before
  }

  /** The receipts that were used or have run out. */
  function Ended(log: seq<Record>): set<Token> {
    if log == [] then {} else
      var before := Ended(log[..|log| - 1]);
      var last := log[|log| - 1];
      if last.Called? || last.Dropped? then before + {last.receipt} else before
  }

  /** A receipt is new, and is dropped once, when it has run out. A backend call uses a receipt that stands
      for exactly this plan of this user, has not run out, was never used or dropped, and the authorizer
      has just agreed. */
  predicate Lawful(w: Workflow, log: seq<Record>, r: Record) {
    match r
    case Granted(receipt, _, _) => receipt !in Grants(log)
    case Dropped(receipt, g, at) =>
      receipt in Grants(log) && Grants(log)[receipt] == g && receipt !in Ended(log) && g.expires <= at
    case Asked(_, _, _, _, _) => true
    case Called(receipt, g, at, _) =>
      && receipt in Grants(log) && Grants(log)[receipt] == g && receipt !in Ended(log) && at < g.expires
      && log != [] && log[|log| - 1] == Asked(ApplyAction(w), g.uid, g.payload.target, g.payload.fingerprint, true)
  }

  ghost predicate Legal(w: Workflow, log: seq<Record>) {
    log != [] ==> Legal(w, log[..|log| - 1]) && Lawful(w, log[..|log| - 1], log[|log| - 1])
  }

  lemma LegalNext(w: Workflow, log: seq<Record>, r: Record)
    requires Legal(w, log) && Lawful(w, log, r)
    ensures Legal(w, log + [r])
    ensures Grants(log + [r]) == if r.Granted? then Grants(log)[r.receipt := r.grant] else Grants(log)
    ensures Ended(log + [r]) == if r.Called? || r.Dropped? then Ended(log) + {r.receipt} else Ended(log)
  {
    assert (log + [r])[..|log|] == log;
  }

  lemma {:induction false} LegalPrefix(w: Workflow, log: seq<Record>, k: nat)
    requires Legal(w, log) && k <= |log|
    ensures Legal(w, log[..k])
    ensures k < |log| ==> Lawful(w, log[..k], log[k])
    decreases |log|
  {
    if k == |log| {
      assert log[..k] == log;
    } else if k < |log| - 1 {
      var prefix := log[..|log| - 1];
      LegalPrefix(w, prefix, k);
      assert prefix[..k] == log[..k];
    }
  }

  lemma {:induction false} WasGranted(w: Workflow, log: seq<Record>, receipt: Token) returns (k: nat)
    requires Legal(w, log) && receipt in Grants(log)
    ensures k < |log| && log[k].Granted? && log[k].receipt == receipt && log[k].grant == Grants(log)[receipt]
    decreases |log|
  {
    var last := log[|log| - 1];
    if last.Granted? && last.receipt == receipt {
      k := |log| - 1;
    } else {
      k := WasGranted(w, log[..|log| - 1], receipt);
    }
  }

  lemma {:induction false} GrantRecorded(w: Workflow, log: seq<Record>, i: nat)
    requires Legal(w, log) && i < |log| && log[i].Granted?
    ensures log[i].receipt in Grants(log) && Grants(log)[log[i].receipt] == log[i].grant
    decreases |log|
  {
    if i < |log| - 1 {
      GrantRecorded(w, log[..|log| - 1], i);
    }
  }

  lemma {:induction false} IsEnded(log: seq<Record>, i: nat)
    requires i < |log| && (log[i].Called? || log[i].Dropped?)
    ensures log[i].receipt in Ended(log)
    decreases |log|
  {
    if i < |log| - 1 {
      IsEnded(log[..|log| - 1], i);
    }
  }

  /** Every backend call comes from one earlier successful validation of the same user, target and exact
      payload, not yet expired when the request came, and from the authorizer's yes to that workflow's
      action just before. */
  lemma CallHasGrant(w: Workflow, log: seq<Record>, k: nat) returns (granted: nat)
    requires Legal(w, log) && k < |log| && log[k].Called?
    ensures granted < k && log[granted].Granted?
    ensures log[granted].receipt == log[k].receipt && log[granted].grant == log[k].grant
    ensures log[k].at < log[k].grant.expires
    ensures log[k - 1] == Asked(ApplyAction(w), log[k].grant.uid, log[k].grant.payload.target,
      log[k].grant.payload.fingerprint, true)
  {
    LegalPrefix(w, log, k);
    granted := WasGranted(w, log[..k], log[k].receipt);
  }

  /** Two calls never come from one validation, and a receipt that was dropped is never used. */
  lemma CallsAreInjective(w: Workflow, log: seq<Record>, i: nat, j: nat)
    requires Legal(w, log) && i < j < |log| && (log[i].Called? || log[i].Dropped?) && log[j].Called?
    ensures log[i].receipt != log[j].receipt
  {
    LegalPrefix(w, log, j);
    IsEnded(log[..j], i);
  }

  /** What befalls the plan kept under a key: a plan is kept there, or a receipt of that key ends. */
  predicate Touches(r: Record, k: Key) {
    match r
    case Granted(_, g, kept) => kept && KeyOf(g) == k
    case Dropped(_, g, _) => KeyOf(g) == k
    case Asked(_, _, _, _, _) => false
    case Called(_, g, _, _) => KeyOf(g) == k
  }

  predicate Keeps(r: Record, k: Key, p: Payload) {
    r.Granted? && r.kept && KeyOf(r.grant) == k && r.grant.payload == p
  }

  /** The plan kept under a key, as the history tells it. */
  function PlanUnder(log: seq<Record>, k: Key): Option<Payload> {
    if log == [] then None else
      AfterOne(PlanUnder(log[..|log| - 1], k), log[|log| - 1], k)
  }

  function AfterOne(plan: Option<Payload>, r: Record, k: Key): Option<Payload> {
    if !Touches(r, k) then plan else if r.Granted? then Some(r.grant.payload) else None
  }

  /** The kept plans of the targets that allow applying are those the history tells. */
  ghost predicate Told(w: Workflow, targets: map<string, Target>, log: seq<Record>, plans: map<Key, Payload>) {
    forall k: Key :: k.0 in targets && MayApply(w, targets[k.0]) ==>
      PlanUnder(log, k) == if k in plans then Some(plans[k]) else None
  }

  /** What a record does to the kept plans. */
  function PlansAfter(plans: map<Key, Payload>, r: Record): map<Key, Payload> {
    match r
    case Granted(_, g, kept) => if kept then plans[KeyOf(g) := g.payload] else plans
    case Dropped(_, g, _) => plans - {KeyOf(g)}
    case Asked(_, _, _, _, _) => plans
    case Called(_, g, _, _) => plans - {KeyOf(g)}
  }

  lemma ToldNext(w: Workflow, targets: map<string, Target>, log: seq<Record>, plans: map<Key, Payload>, r: Record)
    requires Told(w, targets, log, plans)
    ensures Told(w, targets, log + [r], PlansAfter(plans, r))
  {
    assert (log + [r])[..|log|] == log;
  }

  /** The last record that touches a key decides. */
  lemma {:induction false} LastTouch(log: seq<Record>, k: Key, i: nat)
    requires i < |log| && Touches(log[i], k) && forall j :: i < j < |log| ==> !Touches(log[j], k)
    ensures PlanUnder(log, k) == if log[i].Granted? then Some(log[i].grant.payload) else None
    decreases |log|
  {
    if i < |log| - 1 {
      LastTouch(log[..|log| - 1], k, i);
    }
  }

  lemma {:induction false} FindTouch(log: seq<Record>, k: Key, i: nat) returns (m: nat)
    requires i < |log| && Touches(log[i], k)
    ensures i <= m < |log| && Touches(log[m], k) && forall j :: m < j < |log| ==> !Touches(log[j], k)
    decreases |log|
  {
    m := |log| - 1;
    if !Touches(log[m], k) {
      m := FindTouch(log[..m], k, i);
    }
  }

  /** Since record i the plan under this key was given up or replaced, and not kept again. */
  ghost predicate LostSince(log: seq<Record>, i: nat, k: Key, p: Payload)
    requires i < |log|
  {
    exists j :: i < j < |log| && Touches(log[j], k) && !Keeps(log[j], k, p)
      && forall m :: j < m < |log| ==> !Keeps(log[m], k, p)
  }

  /** The plan that came with a receipt is there exactly when, since then, it was not lost for good. */
  lemma KeptExactly(log: seq<Record>, i: nat)
    requires i < |log| && log[i].Granted? && log[i].kept
    ensures var k, p := KeyOf(log[i].grant), log[i].grant.payload;
      PlanUnder(log, k) == Some(p) <==> !LostSince(log, i, k, p)
  {
    var k, p := KeyOf(log[i].grant), log[i].grant.payload;
    var m := FindTouch(log, k, i);
    LastTouch(log, k, m);
    if Keeps(log[m], k, p) {
      assert !LostSince(log, i, k, p);
    } else {
      assert m > i && forall n :: m < n < |log| ==> !Keeps(log[n], k, p);
    }
  }

  /** A receipt whose key no other receipt ever had keeps its plan until it ends. */
  lemma AloneIsKept(w: Workflow, log: seq<Record>, i: nat)
    requires Legal(w, log) && i < |log| && log[i].Granted? && log[i].kept && log[i].receipt !in Ended(log)
    requires forall j :: 0 <= j < |log| && j != i && log[j].Granted? ==> KeyOf(log[j].grant) != KeyOf(log[i].grant)
    ensures !LostSince(log, i, KeyOf(log[i].grant), log[i].grant.payload)
  {
    var k := KeyOf(log[i].grant);
    forall j | i < j < |log| && (log[j].Called? || log[j].Dropped?) ensures !Touches(log[j], k) {
      if Touches(log[j], k) {
        LegalPrefix(w, log, j);
        var m := WasGranted(w, log[..j], log[j].receipt);
        IsEnded(log, j);
      }
    }
  }
}
