/** Previewing and applying the update of one direct input in flake.lock. */
module FlakeLockUpdate {
  import opened Basics
  import opened FlakeLockModel
  import opened JournalModel
  import opened NixGenerator

  datatype Reason = UnsafeLock | UnknownInput | UnsupportedInput | SourceRace | UpdateFailed | SourceChanged
    | ScopeChanged | InvalidCandidate | ShapeChanged | OtherInputChanged | InternalError

  /** What a preview ends with; a passed one has a fingerprint when its candidate fits the apply limit. */
  datatype Preview =
    | Refused(reason: Reason)
    | NoChange
    | Passed(fingerprint: Option<Fingerprint>, candidate: string, changed: set<string>)

  /** What a preview sees beside the source that it takes the fingerprint of: the lock that it inspected
      before that; the other files and the lock that it read after that; the copy, and the source once it
      was copied; the copy after the command, and the source at the end. */
  datatype World = World(inspected: string, others: string, read: string, copied: Tree, whileCopying: Tree,
    exit: int, candidate: Tree, atEnd: Tree)

  /** Nobody touches the source, and the command leaves this lock in the copy. */
  function Quiet(source: Tree, candidate: string): World {
    World(source.lock, source.others, source.lock, source, source, 0, Tree(source.others, candidate), source)
  }

  predicate NodeNamesFit(l: Lock) {
    forall name <- l.nodes :: name != "" && |name| <= MAX_NAME
  }

  function StrictLock(parse: Parser, text: string): Option<Lock> {
    if |text| <= MAX_LOCK_BYTES && parse(text).Some? && Strict(parse(text).value) then parse(text) else None
  }

  /** The unprivileged preview, up to the point where its job shows a result. */
  function PreviewUpdate(parse: Parser, root: string, input: string, source: Tree, w: World): Preview {
    match StrictLock(parse, w.inspected)
    case None => Refused(UnsafeLock)
    case Some(first) =>
      if InputNamed(first, input).None? then Refused(UnknownInput)
      else if !Updatable(InputNamed(first, input)) then Refused(UnsupportedInput)
      else if |w.read| > MAX_LOCK_BYTES || parse(w.read).None? || !NodeNamesFit(parse(w.read).value) then
        Refused(UnsafeLock)
      else if w.copied != source || w.whileCopying != source then Refused(SourceRace)
      else if w.exit != 0 then Refused(UpdateFailed)
      else Compare(parse, root, input, source, first, parse(w.read).value, w)
  }

  /** The records of the inputs are those of the lock that was inspected, the node table and the text those
      of the lock that was read. */
  function Compare(parse: Parser, root: string, input: string, source: Tree, first: Lock, before: Lock,
      w: World): Preview
    requires Strict(first)
  {
    var text := w.candidate.lock;
    if |text| > MAX_LOCK_BYTES || parse(text).None? || !NodeNamesFit(parse(text).value) then Refused(InvalidCandidate)
    else if w.atEnd != source then Refused(SourceChanged)
    else if w.candidate.others != w.others then Refused(ScopeChanged)
    else if !Strict(parse(text).value) then Refused(InvalidCandidate)
    else
      var after := parse(text).value;
      if !RootKnown(before) then Refused(InternalError)
      else if RootInputs(first).Keys != RootInputs(after).Keys || RootTable(before) != RootTable(after) then
        Refused(ShapeChanged)
      else if ChangedDirect(first, after) - {input} != {} then Refused(OtherInputChanged)
      else if text == w.read then NoChange
      else
        var changed := ChangedNodes(before, after);
        Passed(
          if |text| <= MAX_LOCK_UPDATE_BYTES
          then Some(PlanFingerprint(root, input, source, w.read, text, changed)) else None,
          text, changed)
  }

  /** The plan that the privileged helper builds for itself. */
  datatype Plan = Plan(fingerprint: Fingerprint, before: string, after: string, changed: set<string>)

  predicate SafeName(input: string) {
    0 < |input| <= MAX_NAME && forall i :: 0 <= i < |input| ==>
      'a' <= input[i] <= 'z' || 'A' <= input[i] <= 'Z' || '0' <= input[i] <= '9' || input[i] in {'_', '-'}
  }

  function PlanUpdate(parse: Parser, root: string, input: string, claimed: Tree, candidate: string,
      now: Tree): Option<Plan>
  {
    if !SafeName(input) || |candidate| > MAX_LOCK_UPDATE_BYTES || 0 as char in candidate then None
    else if now != claimed then None
    else if |now.lock| > MAX_LOCK_UPDATE_BYTES || parse(now.lock).None? || parse(candidate).None? then None
    else if candidate == now.lock then None
    else if StrictLock(parse, now.lock).None? || StrictLock(parse, candidate).None? then None
    else
      var before, after := parse(now.lock).value, parse(candidate).value;
      if InputNamed(before, input).None? || InputNamed(after, input).None? then None
      else if !Updatable(InputNamed(before, input)) then None
      else if RootTable(before) != RootTable(after) then None
      else if ChangedDirect(before, after) != {input} then None
      else
        var changed := ChangedNodes(before, after);
        Some(Plan(PlanFingerprint(root, input, claimed, now.lock, candidate, changed), now.lock, candidate, changed))
  }

  /** JSON text has no raw control characters. */
  ghost predicate JsonParser(parse: Parser) {
    forall text :: parse(text).Some? ==> 0 as char !in text
  }

  /** The selected input's record is not the same in the two locks. */
  predicate RecordChanged(parse: Parser, input: string, before: string, after: string)
    requires StrictLock(parse, before).Some? && StrictLock(parse, after).Some?
  {
    InputNamed(parse(before).value, input) != InputNamed(parse(after).value, input)
  }

  /** The helper accepts this candidate on this source, under this fingerprint. */
  predicate Accepted(parse: Parser, root: string, input: string, source: Tree, candidate: string,
      shown: Option<Fingerprint>)
  {
    var plan := PlanUpdate(parse, root, input, source, candidate, source);
    plan.Some? && shown == Some(plan.value.fingerprint)
  }

  /** The lock in place can stand for the one inspected: it is strict, its other direct inputs have the
      same records, and its selected input can be updated. */
  predicate StandsFor(parse: Parser, input: string, inspected: string, now: string)
    requires StrictLock(parse, inspected).Some?
  {
    && StrictLock(parse, now).Some?
    && Updatable(InputNamed(parse(now).value, input))
    && (forall name <- RootInputs(parse(now).value) :: name != input ==>
         InputNamed(parse(inspected).value, name) == InputNamed(parse(now).value, name))
  }

  /** What a fingerprint was taken of. */
  datatype Subject = Subject(root: string, input: string, source: Tree, before: string, after: string,
    changed: set<string>)

  /** What the helper plans, and what a preview shows. */
  function Planned(root: string, input: string, claimed: Tree, p: Plan): Subject {
    Subject(root, input, claimed, p.before, p.after, p.changed)
  }

  function Previewed(root: string, input: string, source: Tree, w: World, p: Preview): Subject
    requires p.Passed?
  {
    Subject(root, input, source, w.read, p.candidate, p.changed)
  }

  lemma FingerprintBinds(a: Subject, b: Subject)
    requires PlanFingerprint(a.root, a.input, a.source, a.before, a.after, a.changed) ==
      PlanFingerprint(b.root, b.input, b.source, b.before, b.after, b.changed)
    ensures a == b
  {
    forall name ensures name in a.changed <==> name in b.changed {
      assert name in SortedKeys(a.changed) <==> name in SortedKeys(b.changed);
    }
  }

  /** Two accepted plans with one fingerprint are the same: of the same root, input and source, from the same
      text to the same text, with the same changed nodes. */
  lemma OnePlanPerFingerprint(parse: Parser, root: string, input: string, claimed: Tree, candidate: string, now: Tree,
      parse': Parser, root': string, input': string, claimed': Tree, candidate': string, now': Tree)
    requires PlanUpdate(parse, root, input, claimed, candidate, now).Some?
    requires PlanUpdate(parse', root', input', claimed', candidate', now').Some?
    requires PlanUpdate(parse, root, input, claimed, candidate, now).value.fingerprint ==
      PlanUpdate(parse', root', input', claimed', candidate', now').value.fingerprint
    ensures root == root' && input == input' && claimed == claimed' && candidate == candidate' && now == now'
    ensures PlanUpdate(parse, root, input, claimed, candidate, now) ==
      PlanUpdate(parse', root', input', claimed', candidate', now')
  {
    PlanFits(parse, root, input, claimed, candidate, now);
    PlanFits(parse', root', input', claimed', candidate', now');
    hide PlanUpdate;
    var p := PlanUpdate(parse, root, input, claimed, candidate, now).value;
    var p' := PlanUpdate(parse', root', input', claimed', candidate', now').value;
    FingerprintBinds(Planned(root, input, claimed, p), Planned(root', input', claimed', p'));
  }

  /** What is accepted under a fingerprint that a preview showed is what the preview showed: the same root, input
      and source, the lock it read, its candidate, and the nodes that it said would change. */
  lemma ShownIsAccepted(parse: Parser, root: string, input: string, source: Tree, w: World,
      parse': Parser, root': string, input': string, claimed: Tree, candidate: string, now: Tree)
    requires PreviewUpdate(parse, root, input, source, w).Passed?
    requires PlanUpdate(parse', root', input', claimed, candidate, now).Some?
    requires PreviewUpdate(parse, root, input, source, w).fingerprint ==
      Some(PlanUpdate(parse', root', input', claimed, candidate, now).value.fingerprint)
    ensures var p := PreviewUpdate(parse, root, input, source, w);
      var plan := PlanUpdate(parse', root', input', claimed, candidate, now).value;
      && root == root' && input == input' && source == claimed == now
      && w.read == now.lock == plan.before && p.candidate == candidate == plan.after && p.changed == plan.changed
  {
    PlanFits(parse', root', input', claimed, candidate, now);
    PassedPreview(parse, root, input, source, w);
    hide PlanUpdate, PreviewUpdate;
    FingerprintBinds(Previewed(root, input, source, w, PreviewUpdate(parse, root, input, source, w)),
      Planned(root', input', claimed, PlanUpdate(parse', root', input', claimed, candidate, now).value));
  }

  /** Two passed previews that show one fingerprint show the same. */
  lemma OnePreviewPerFingerprint(parse: Parser, root: string, input: string, source: Tree, w: World,
      parse': Parser, root': string, input': string, source': Tree, w': World)
    requires PreviewUpdate(parse, root, input, source, w).Passed?
    requires PreviewUpdate(parse', root', input', source', w').Passed?
    requires PreviewUpdate(parse, root, input, source, w).fingerprint.Some?
    requires PreviewUpdate(parse, root, input, source, w).fingerprint ==
      PreviewUpdate(parse', root', input', source', w').fingerprint
    ensures root == root' && input == input' && source == source' && w.read == w'.read
    ensures PreviewUpdate(parse, root, input, source, w) == PreviewUpdate(parse', root', input', source', w')
  {
    PassedPreview(parse, root, input, source, w);
    PassedPreview(parse', root', input', source', w');
    hide PreviewUpdate;
    var p, p' := PreviewUpdate(parse, root, input, source, w), PreviewUpdate(parse', root', input', source', w');
    FingerprintBinds(Previewed(root, input, source, w, p), Previewed(root', input', source', w', p'));
  }

  /** What an accepted plan carries. */
  lemma PlanFits(parse: Parser, root: string, input: string, claimed: Tree, candidate: string, now: Tree)
    requires PlanUpdate(parse, root, input, claimed, candidate, now).Some?
    ensures var p := PlanUpdate(parse, root, input, claimed, candidate, now).value;
      && now == claimed && p.before == now.lock && p.after == candidate
      && p.fingerprint == PlanFingerprint(root, input, claimed, p.before, p.after, p.changed)
      && p.fingerprint.root == root && p.fingerprint.input == input && p.fingerprint.source == claimed
      && p.fingerprint.previous == Sha256(now.lock) && p.fingerprint.candidate == Sha256(candidate)
      && forall name :: name in p.fingerprint.changed <==> name in p.changed
  {
  }

  /** A passed preview's candidate is accepted by the helper on the source that the preview took the
      fingerprint of, and under the fingerprint that it showed, exactly when the lock in place is the one
      read and can stand for the one inspected, the selected record really changed, and both locks fit
      the apply limit. */
  lemma PreviewAndHelperAgree(parse: Parser, root: string, input: string, source: Tree, w: World)
    requires JsonParser(parse) && SafeName(input) && PreviewUpdate(parse, root, input, source, w).Passed?
    ensures var p := PreviewUpdate(parse, root, input, source, w);
      && StrictLock(parse, w.inspected).Some? && StrictLock(parse, p.candidate).Some?
      && (Accepted(parse, root, input, source, p.candidate, p.fingerprint) <==>
           && w.read == source.lock && StandsFor(parse, input, w.inspected, source.lock)
           && RecordChanged(parse, input, source.lock, p.candidate)
           && |source.lock| <= MAX_LOCK_UPDATE_BYTES && |p.candidate| <= MAX_LOCK_UPDATE_BYTES)
  {
    PassedPreview(parse, root, input, source, w);
    if StrictLock(parse, source.lock).Some? && w.read == source.lock {
      SameChanges(parse(w.inspected).value, parse(source.lock).value, parse(w.candidate.lock).value, input);
    }
  }

  /** Of two locks with the root table of the third, the first of which differs from the third at one
      input at most: so does the second, exactly when the two agree elsewhere. */
  lemma SameChanges(first: Lock, now: Lock, after: Lock, input: string)
    requires Strict(first) && Strict(now) && Strict(after)
    requires RootInputs(first).Keys == RootInputs(after).Keys && RootTable(now) == RootTable(after)
    requires ChangedDirect(first, after) <= {input}
    ensures input in RootInputs(now) ==>
      (ChangedDirect(now, after) == {input} <==>
        && InputNamed(now, input) != InputNamed(after, input)
        && forall name <- RootInputs(now) :: name != input ==> InputNamed(first, name) == InputNamed(now, name))
  {
    assert RootInputs(now) == RootInputs(after);
    forall name <- RootInputs(now) | name != input
      ensures InputNamed(first, name) == InputNamed(after, name)
    {
      assert name !in ChangedDirect(first, after);
    }
    if input in RootInputs(now) {
      assert input in ChangedDirect(now, after) <==> InputNamed(now, input) != InputNamed(after, input);
      if forall name <- RootInputs(now) :: name != input ==> InputNamed(first, name) == InputNamed(now, name) {
        assert ChangedDirect(now, after) <= {input};
      } else {
        var name :| name in RootInputs(now) && name != input && InputNamed(first, name) != InputNamed(now, name);
        assert name in ChangedDirect(now, after);
      }
    }
  }

  /** What a passed preview has checked. */
  lemma PassedPreview(parse: Parser, root: string, input: string, source: Tree, w: World)
    requires PreviewUpdate(parse, root, input, source, w).Passed?
    ensures var p := PreviewUpdate(parse, root, input, source, w);
      && p.candidate == w.candidate.lock != w.read
      && StrictLock(parse, w.inspected).Some? && StrictLock(parse, p.candidate).Some?
      && parse(w.read).Some? && RootKnown(parse(w.read).value)
      && (var first, before, after := parse(w.inspected).value, parse(w.read).value, parse(p.candidate).value;
          && Updatable(InputNamed(first, input)) && InputNamed(after, input).Some?
          && RootInputs(first).Keys == RootInputs(after).Keys
          && RootTable(before) == RootTable(after) && ChangedDirect(first, after) <= {input}
          && p.changed == ChangedNodes(before, after))
      && p.fingerprint == if |p.candidate| > MAX_LOCK_UPDATE_BYTES then None
                          else Some(PlanFingerprint(root, input, source, w.read, p.candidate, p.changed))
  {
  }

  /** The lock that was inspected has this input, and it can be updated. */
  predicate Inspected(parse: Parser, input: string, w: World) {
    StrictLock(parse, w.inspected).Some? && Updatable(InputNamed(parse(w.inspected).value, input))
  }

  /** A text that is a lock file by its size and its node names. */
  predicate IsLock(parse: Parser, text: string) {
    |text| <= MAX_LOCK_BYTES && parse(text).Some? && NodeNamesFit(parse(text).value)
  }

  /** The preview gets as far as running the command, on an exact copy. */
  predicate Copied(parse: Parser, input: string, source: Tree, w: World) {
    Inspected(parse, input, w) && IsLock(parse, w.read) && w.copied == w.whileCopying == source
  }

  /** The command leaves a lock and touches nothing else, and neither does anyone the source. */
  predicate Updated(parse: Parser, input: string, source: Tree, w: World) {
    && Copied(parse, input, source, w) && w.exit == 0
    && IsLock(parse, w.candidate.lock) && w.atEnd == source && w.candidate.others == w.others
    && Strict(parse(w.candidate.lock).value)
  }

  /** The candidate has the direct inputs that were inspected, and the root table that was read. */
  predicate SameShape(parse: Parser, w: World)
    requires StrictLock(parse, w.inspected).Some? && parse(w.read).Some?
    requires parse(w.candidate.lock).Some? && Strict(parse(w.candidate.lock).value)
  {
    var first, before, after := parse(w.inspected).value, parse(w.read).value, parse(w.candidate.lock).value;
    RootKnown(before) && RootInputs(first).Keys == RootInputs(after).Keys && RootTable(before) == RootTable(after)
  }

  /** No other direct input has another record than at the inspection. */
  predicate OthersKept(parse: Parser, input: string, w: World)
    requires StrictLock(parse, w.inspected).Some?
    requires parse(w.candidate.lock).Some? && Strict(parse(w.candidate.lock).value)
  {
    var first, after := parse(w.inspected).value, parse(w.candidate.lock).value;
    forall name <- RootInputs(first) :: name != input ==> InputNamed(first, name) == InputNamed(after, name)
  }

  /** When a preview passes or finds nothing to change, and with which of the two. */
  lemma PassesExactly(parse: Parser, root: string, input: string, source: Tree, w: World)
    ensures var p := PreviewUpdate(parse, root, input, source, w);
      && (!p.Refused? <==>
           Updated(parse, input, source, w) && SameShape(parse, w) && OthersKept(parse, input, w))
      && (!p.Refused? ==> (p == NoChange <==> w.candidate.lock == w.read))
  {
    if Updated(parse, input, source, w) && SameShape(parse, w) {
      var first, after := parse(w.inspected).value, parse(w.candidate.lock).value;
      forall name <- RootInputs(first) | name != input
        ensures name in ChangedDirect(first, after) - {input} <==> InputNamed(first, name) != InputNamed(after, name)
      {
      }
    }
  }

  /** Why a preview is refused. */
  lemma RefusesExactly(parse: Parser, root: string, input: string, source: Tree, w: World, reason: Reason)
    ensures PreviewUpdate(parse, root, input, source, w) == Refused(reason) <==>
      match reason
      case UnsafeLock =>
        || StrictLock(parse, w.inspected).None?
        || (Inspected(parse, input, w) && !IsLock(parse, w.read))
      case UnknownInput =>
        StrictLock(parse, w.inspected).Some? && input !in RootInputs(parse(w.inspected).value)
      case UnsupportedInput =>
        && StrictLock(parse, w.inspected).Some? && input in RootInputs(parse(w.inspected).value)
        && !Inspected(parse, input, w)
      case SourceRace => Inspected(parse, input, w) && IsLock(parse, w.read) && !Copied(parse, input, source, w)
      case UpdateFailed => Copied(parse, input, source, w) && w.exit != 0
      case SourceChanged =>
        Copied(parse, input, source, w) && w.exit == 0 && IsLock(parse, w.candidate.lock) && w.atEnd != source
      case ScopeChanged =>
        && Copied(parse, input, source, w) && w.exit == 0 && IsLock(parse, w.candidate.lock) && w.atEnd == source
        && w.candidate.others != w.others
      case InvalidCandidate =>
        && Copied(parse, input, source, w) && w.exit == 0
        && (|| !IsLock(parse, w.candidate.lock)
            || (&& w.atEnd == source && w.candidate.others == w.others && !Strict(parse(w.candidate.lock).value)))
      case InternalError => Updated(parse, input, source, w) && !RootKnown(parse(w.read).value)
      case ShapeChanged =>
        Updated(parse, input, source, w) && RootKnown(parse(w.read).value) && !SameShape(parse, w)
      case OtherInputChanged =>
        Updated(parse, input, source, w) && SameShape(parse, w) && !OthersKept(parse, input, w)
  {
    PassesExactly(parse, root, input, source, w);
  }

  /** A letter or digit of ASCII, by its code. */
  predicate LetterOrDigit(code: int) {
    48 <= code < 58 || 65 <= code < 91 || 97 <= code < 123
  }

  lemma SafeNames(input: string)
    ensures SafeName(input) <==>
      1 <= |input| <= 128 && forall c <- input :: LetterOrDigit(c as int) || c in {'_', '-'}
  {
    if SafeName(input) {
      forall c <- input ensures LetterOrDigit(c as int) || c in {'_', '-'} {
        var i :| 0 <= i < |input| && input[i] == c;
      }
    } else if 1 <= |input| <= 128 {
      var i :| 0 <= i < |input| && !('a' <= input[i] <= 'z' || 'A' <= input[i] <= 'Z' || '0' <= input[i] <= '9'
        || input[i] in {'_', '-'});
      assert input[i] in input;
    }
  }

  /** What the strict inspection of a lock comes to, and which inputs can then be updated. */
  lemma InspectsExactly(l: Lock, input: string)
    ensures Strict(l) <==>
      && l.root in l.nodes && |l.nodes| <= 512
      && (l.nodes[l.root].inputs.Some? ==>
           var inputs := l.nodes[l.root].inputs.value;
           forall name <- inputs :: 1 <= |name| <= 128 &&
             match inputs[name]
             case ToNode(node) => node in l.nodes && l.nodes[node].source.locked
             case Follows(path) => |path| > 0
             case Malformed => false)
    ensures Strict(l) ==>
      (Updatable(InputNamed(l, input)) <==>
        && l.nodes[l.root].inputs.Some? && input in l.nodes[l.root].inputs.value
        && l.nodes[l.root].inputs.value[input].ToNode?
        && var node := l.nodes[l.root].inputs.value[input].node;
           node in l.nodes && l.nodes[node].source.kind !in ["follows", "indirect", "path", "unknown"])
  {
    if RootKnown(l) && (forall name <- RootInputs(l) :: Resolves(l, name, RootInputs(l)[name])) {
      assert input in RootInputs(l) ==> Resolves(l, input, RootInputs(l)[input]);
    }
  }

  /** When the helper accepts a candidate. */
  lemma AcceptsExactly(parse: Parser, root: string, input: string, claimed: Tree, candidate: string, now: Tree)
    ensures PlanUpdate(parse, root, input, claimed, candidate, now).Some? <==>
      && 1 <= |input| <= 128 && (forall c <- input :: LetterOrDigit(c as int) || c in {'_', '-'})
      && claimed == now && now.lock != candidate && (0 as char) !in candidate
      && |now.lock| <= 1_000_000 && |candidate| <= 1_000_000
      && StrictLock(parse, now.lock).Some? && StrictLock(parse, candidate).Some?
      && var before, after := parse(now.lock).value, parse(candidate).value;
         && Updatable(InputNamed(before, input)) && RootTable(before) == RootTable(after)
         && forall name <- RootInputs(before) ::
              name == input <==> InputNamed(before, name) != InputNamed(after, name)
  {
    SafeNames(input);
    hide SafeName;
    if StrictLock(parse, now.lock).Some? && StrictLock(parse, candidate).Some? {
      var before, after := parse(now.lock).value, parse(candidate).value;
      if RootTable(before) == RootTable(after) && input in RootInputs(before) {
        assert forall name <- RootInputs(before) ::
          name in ChangedDirect(before, after) <==> InputNamed(before, name) != InputNamed(after, name);
        assert ChangedDirect(before, after) == {input} <==> forall name <- RootInputs(before) ::
          name in ChangedDirect(before, after) <==> name == input;
      }
    }
  }

  /** Every plan the helper accepts is one a quiet preview would have shown, under the same fingerprint. */
  lemma EveryPlanHasAPreview(parse: Parser, root: string, input: string, source: Tree, candidate: string)
    requires PlanUpdate(parse, root, input, source, candidate, source).Some?
    requires NodeNamesFit(parse(source.lock).value) && NodeNamesFit(parse(candidate).value)
    ensures var plan := PlanUpdate(parse, root, input, source, candidate, source).value;
      PreviewUpdate(parse, root, input, source, Quiet(source, candidate)) ==
        Passed(Some(plan.fingerprint), candidate, plan.changed)
  {
    var before, after := parse(source.lock).value, parse(candidate).value;
    assert RootInputs(before) == RootInputs(after);
  }

  /** The first table, with the second's records under these names. */
  function Overwritten(before: map<string, Node>, after: map<string, Node>, names: set<string>): map<string, Node> {
    (before - names) + (map name | name in after && name in names :: after[name])
  }

  /** The node table after the update is the one before, overwritten at the changed nodes alone. */
  lemma ChangedNodesAreTheDifference(before: Lock, after: Lock)
    ensures var changed := ChangedNodes(before, after);
      && after.nodes == Overwritten(before.nodes, after.nodes, changed)
      && forall smaller: set<string> | smaller < changed ::
           after.nodes != Overwritten(before.nodes, after.nodes, smaller)
  {
    var changed := ChangedNodes(before, after);
    forall name ensures name in changed <==> NodeAt(before, name) != NodeAt(after, name) {
    }
    forall smaller: set<string> | smaller < changed
      ensures after.nodes != Overwritten(before.nodes, after.nodes, smaller)
    {
      var missed :| missed in changed && missed !in smaller;
      var patched := Overwritten(before.nodes, after.nodes, smaller);
      assert missed in patched <==> missed in before.nodes;
      assert missed in patched ==> patched[missed] == before.nodes[missed];
    }
  }

  /** An accepted plan touches one direct input: the root's input table is kept, every other direct input
      has the record it had, and the selected one's node is among the changed nodes. */
  lemma AcceptedPlanTouchesOneInput(parse: Parser, root: string, input: string, claimed: Tree, candidate: string,
      now: Tree)
    requires PlanUpdate(parse, root, input, claimed, candidate, now).Some?
    ensures StrictLock(parse, now.lock).Some? && StrictLock(parse, candidate).Some? && now == claimed
    ensures var before, after := parse(now.lock).value, parse(candidate).value;
      var plan := PlanUpdate(parse, root, input, claimed, candidate, now).value;
      && RootTable(before) == RootTable(after) && input in RootInputs(before)
      && (forall name | name != input :: InputNamed(before, name) == InputNamed(after, name))
      && InputNamed(before, input) != InputNamed(after, input)
      && RootInputs(before)[input].ToNode? && RootInputs(before)[input].node in plan.changed
  {
    var before, after := parse(now.lock).value, parse(candidate).value;
    assert RootInputs(before) == RootInputs(after);
    forall name | name != input ensures InputNamed(before, name) == InputNamed(after, name) {
      assert name !in ChangedDirect(before, after);
    }
    assert input in ChangedDirect(before, after);
    assert Resolves(before, input, RootInputs(before)[input]) && Resolves(after, input, RootInputs(after)[input]);
  }

  /** A preview passes in vain when the text changed and the lock it means did not. */
  lemma SameLockPassesInVain(parse: Parser, root: string, input: string, source: Tree, text: string)
    requires StrictLock(parse, source.lock).Some? && NodeNamesFit(parse(source.lock).value)
    requires Updatable(InputNamed(parse(source.lock).value, input))
    requires text != source.lock && |text| <= MAX_LOCK_BYTES && parse(text) == parse(source.lock)
    ensures PreviewUpdate(parse, root, input, source, Quiet(source, text)).Passed?
    ensures PlanUpdate(parse, root, input, source, text, source).None?
  {
    var lock := parse(text).value;
    assert ChangedDirect(lock, lock) == {};
  }

  /** A lock of one input, spelled in two ways. */
  function TwoSpellings(text: string): Option<Lock> {
    if text in {"a", "a "} then Some(OneInput("git", "")) else None
  }

  /** There is such a lock. */
  lemma PassesInVain() returns (parse: Parser, source: Tree, w: World)
    ensures JsonParser(parse) && PreviewUpdate(parse, "", "i", source, w).Passed?
    ensures PlanUpdate(parse, "", "i", source, w.candidate.lock, source).None?
  {
    OneInputIsStrict("git", "");
    parse := TwoSpellings;
    source := Tree("", "a");
    w := Quiet(source, "a ");
    SameLockPassesInVain(parse, "", "i", source, "a ");
  }

  /** Three locks: of a Git repository, and of two states of a directory. */
  function GitAndPaths(text: string): Option<Lock> {
    if text == "g" then Some(OneInput("git", ""))
    else if text in {"p", "q"} then Some(OneInput("path", text))
    else None
  }

  /** An inspected lock whose record can be updated, and two others whose record cannot: a preview passes
      that the helper refuses. */
  lemma OvertakenInspection(parse: Parser, inspected: string, source: Tree, candidate: string)
    requires StrictLock(parse, inspected).Some? && StrictLock(parse, source.lock).Some?
    requires StrictLock(parse, candidate).Some? && candidate != source.lock
    requires NodeNamesFit(parse(source.lock).value) && NodeNamesFit(parse(candidate).value)
    requires forall text <- [inspected, source.lock, candidate] ::
      RootTable(parse(text).value) == Some(map["i" := ToNode("n")])
    requires Updatable(InputNamed(parse(inspected).value, "i")) && !Updatable(InputNamed(parse(source.lock).value, "i"))
    ensures PreviewUpdate(parse, "", "i", source, Quiet(source, candidate).(inspected := inspected)).Passed?
    ensures PlanUpdate(parse, "", "i", source, candidate, source).None?
  {
    assert ChangedDirect(parse(inspected).value, parse(candidate).value) <= {"i"};
  }

  /** The lock that was inspected is replaced before the preview takes the fingerprint of the source: the
      preview passes, with a record that really changed, on a source that nobody touches any more; and the
      helper refuses what it shows. */
  lemma OvertakenPassesInVain() returns (parse: Parser, source: Tree, w: World)
    ensures JsonParser(parse) && w.inspected != source.lock
    ensures w == Quiet(source, w.candidate.lock).(inspected := w.inspected)
    ensures PreviewUpdate(parse, "", "i", source, w).Passed?
    ensures StrictLock(parse, source.lock).Some? && StrictLock(parse, w.candidate.lock).Some?
    ensures RecordChanged(parse, "i", source.lock, w.candidate.lock)
    ensures PlanUpdate(parse, "", "i", source, w.candidate.lock, source).None?
  {
    hide PreviewUpdate, PlanUpdate, OneInput;
    OneInputIsStrict("git", "");
    OneInputIsStrict("path", "p");
    OneInputIsStrict("path", "q");
    parse := GitAndPaths;
    source := Tree("", "p");
    w := Quiet(source, "q").(inspected := "g");
    OvertakenInspection(parse, "g", source, "q");
  }

  function OneInput(kind: string, details: string): Lock {
    Lock(map[
      "r" := Node(Some(map["i" := ToNode("n")]), Source(false, "", ""), ""),
      "n" := Node(None, Source(true, kind, details), "")], "r")
  }

  lemma OneInputIsStrict(kind: string, details: string)
    ensures var lock := OneInput(kind, details);
      && Strict(lock) && NodeNamesFit(lock) && RootTable(lock) == Some(map["i" := ToNode("n")])
      && InputNamed(lock, "i") == Some(Direct("n", Source(true, kind, details)))
  {
    var lock := OneInput(kind, details);
    assert lock.nodes.Keys == {"r", "n"} && |lock.nodes| <= 2;
    assert RootInputs(lock) == map["i" := ToNode("n")];
    assert Resolves(lock, "i", ToNode("n"));
  }
}
