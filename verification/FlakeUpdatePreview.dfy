/** The job of one flake update preview: what it hands out for applying, and for how long. */
module FlakeUpdatePreview {
  import opened Basics
  import opened FlakeLockModel
  import opened FlakeLockUpdate

  /** The form of a transaction's identifier. */
  predicate TransactionId(id: string) {
    |id| == 24 && forall c <- id :: '0' <= c <= '9' || 'a' <= c <= 'f'
  }

  /** That is, 24 hexadecimal digits in lower case. */
  lemma TransactionIds(id: string)
    ensures TransactionId(id) <==>
      |id| == 24 && forall c <- id :: 48 <= c as int < 58 || 97 <= c as int < 103
  {
  }

  class PreviewJob {
    const parse: Parser
    const root: string
    const input: string
    const source: Tree

    /** What the comparison came to. Removing the copy can still raise after that; the job has then failed,
        but still shows the fingerprint. */
    var outcome: Option<Preview>
    var failed: bool
    var copyRemoved: bool
    var sourceUnchanged: bool
    var candidate: Option<string>
    var applied: bool
    var transaction: Option<string>

    /** What happened around the preview, once it has ended. */
    ghost var world: Option<World>

    ghost predicate Valid()
      reads this
    {
      && JsonParser(parse) && SafeName(input)
      && (outcome.Some? <==> world.Some?)
      && (outcome.Some? ==> outcome.value == PreviewUpdate(parse, root, input, source, world.value))
      && (candidate.Some? ==> Shown().Some? && candidate.value == outcome.value.candidate && !applied)
      && (applied ==> Shown().Some?)
      && (applied <==> transaction.Some?) && (transaction.Some? ==> TransactionId(transaction.value))
    }

    /** The fingerprint that the job shows. */
    function Shown(): Option<Fingerprint>
      reads this
    {
      if outcome.Some? && outcome.value.Passed? then outcome.value.fingerprint else None
    }

    constructor (parse: Parser, root: string, input: string, source: Tree)
      requires JsonParser(parse) && SafeName(input)
      ensures Valid() && outcome.None? && !applied
      ensures this.parse == parse && this.root == root && this.input == input && this.source == source
    {
      this.parse, this.root, this.input, this.source := parse, root, input, source;
      outcome, failed, candidate, applied, transaction, world := None, false, None, false, None, None;
      copyRemoved, sourceUnchanged := true, false;
    }

    /** The worker ends; its last look at the source decides whether the result can be used. */
    method End(w: World, raised: bool, removed: bool, last: Tree)
      requires Valid() && outcome.None? && !applied
      modifies this
      ensures Valid() && outcome == Some(PreviewUpdate(parse, root, input, source, w)) && !applied
      ensures world == Some(w) && failed == raised && copyRemoved == removed && sourceUnchanged == (last == source)
      ensures candidate.Some? <==> Shown().Some?
    {
      hide PreviewUpdate, JsonParser;
      var result := PreviewUpdate(parse, root, input, source, w);
      world, outcome, failed := Some(w), Some(result), raised;
      copyRemoved, sourceUnchanged := removed, last == source;
      candidate := if result.Passed? && result.fingerprint.Some? then Some(result.candidate) else None;
    }

    /** Hands out the candidate for the fingerprint that was displayed, on a source that is still the same.
        The helper accepts what is handed out, under that fingerprint, exactly when the lock in place is
        the one read and can stand for the one inspected, the selected record changed, and the lock in
        place fits the limit. */
    method CandidateForApply(fingerprint: Fingerprint, now: Tree) returns (r: Option<string>)
      requires Valid()
      ensures r.Some? <==>
        && !failed && sourceUnchanged && copyRemoved && Shown() == Some(fingerprint) && candidate.Some? && !applied
        && now == source
      ensures r.Some? ==>
        && world.Some? && StrictLock(parse, world.value.inspected).Some? && StrictLock(parse, r.value).Some?
        && (Accepted(parse, root, input, now, r.value, Some(fingerprint)) <==>
             && world.value.read == now.lock && StandsFor(parse, input, world.value.inspected, now.lock)
             && RecordChanged(parse, input, now.lock, r.value) && |now.lock| <= MAX_LOCK_UPDATE_BYTES)
    {
      if outcome.None? || !outcome.value.Passed? || failed || !sourceUnchanged || !copyRemoved { return None; }
      if outcome.value.fingerprint != Some(fingerprint) || candidate.None? || applied { return None; }
      if now != source { return None; }
      r := candidate;
      PreviewAndHelperAgree(parse, root, input, source, world.value);
      ShownFits(parse, root, input, source, world.value);
    }

    /** Records the commit of exactly this preview, also of one that failed while it tidied up; from then
        on nothing is handed out any more. */
    method MarkApplied(fingerprint: Fingerprint, id: string) returns (ok: bool)
      requires Valid()
      modifies `applied, `transaction, `candidate
      ensures Valid() && ok == (Shown() == Some(fingerprint) && TransactionId(id))
      ensures ok ==> applied && candidate.None? && transaction == Some(id)
      ensures !ok ==> applied == old(applied) && candidate == old(candidate) && transaction == old(transaction)
    {
      hide PreviewUpdate, JsonParser;
      ok :=
        && outcome.Some? && outcome.value.Passed? && outcome.value.fingerprint == Some(fingerprint)
        && TransactionId(id);
      if ok {
        applied, transaction, candidate := true, Some(id), None;
      }
    }
  }

  lemma ShownFits(parse: Parser, root: string, input: string, source: Tree, w: World)
    requires PreviewUpdate(parse, root, input, source, w).Passed?
    requires PreviewUpdate(parse, root, input, source, w).fingerprint.Some?
    ensures |PreviewUpdate(parse, root, input, source, w).candidate| <= MAX_LOCK_UPDATE_BYTES
  {
    hide PreviewUpdate;
    PassedPreview(parse, root, input, source, w);
  }
}
