/** The persistence attestation: proof, from the two checkpoint masters and a receipt,
    that exactly the planned record was appended. */
module PersistenceAttestation {
  import opened Wrappers
  import opened Records
  import opened Checkpoints
  import opened PersistencePlan
  import WA = WriterAttestation

  /** Oldest acceptable receipt, in microseconds. */
  const MAX_RECEIPT_AGE := 180_000_000

  // ------------------------------------------------------------------ the receipt

  predicate InReceipt(k: Key) {
    || k == SCHEMA || k == EXECUTION_DECISION || CUSTOMER_ID <= k <= ACTION_FAMILY || k == EXECUTION_RECORD_DIGEST
    || k == COMMAND_GENERATED || k == COMMAND_EXECUTED || STATUS <= k <= WRITER_IDENTITY_VERIFIED
    || k == BUSINESS_ACTION_AUTHORIZED || k == EXTERNAL_ACTION_EXECUTED
  }

  /** The fields that say what was written, where and when. */
  function WrittenField(
    candidate: Value, prior: Master, observed: Master, persistedAt: Value, writerRef: Value, k: Key): Value
  {
    if k == AFTER_CHECKPOINT_DIGEST then MasterDigest(observed)
    else if k == WRITER_REF then TextOf(writerRef, 240)
    else if k == EVENT_ID then TextOf(Get(candidate, RECOMMENDED_EVENT_ID), 160)
    else if k == NAMESPACE then Text(NamespaceName)
    else if k == STORAGE_TARGET then Text(CheckpointMaster)
    else if k == BEFORE_CHECKPOINT_DIGEST then MasterDigest(prior)
    else if k == PATCH_DIGEST then TextOf(Get(candidate, PATCH_DIGEST), 180)
    else if k == PERSISTED_AT then TextOf(persistedAt, 80)
    else if k == REVISION then Int(observed.revision)
    else if k == BASE_REVISION then Int(prior.revision)
    else if k == WRITE_MODE then Text(ExplicitAppend)
    else Text(Confirmed)
  }

  /** One field of the receipt body; the receipt digest is added afterwards. */
  function ReceiptField(
    plan: Value, prior: Master, observed: Master, persistedAt: Value, writerRef: Value, k: Key): Value
  {
    if WRITER_IDENTITY_VERIFIED <= k then Bool(false)
    else if STATUS <= k then WrittenField(Get(plan, PATCH_CANDIDATE), prior, observed, persistedAt, writerRef, k)
    else if COMMAND_GENERATED <= k then Bool(false)
    else if CUSTOMER_ID <= k then TextOf(Get(plan, k), if k == EXECUTION_RECORD_DIGEST then 180 else 120)
    else if k == EXECUTION_DECISION then TextOf(Get(plan, EXECUTION_DECISION), 100)
    else Text(ReceiptSchema)
  }

  function ReceiptBody(plan: Value, prior: Master, observed: Master, persistedAt: Value, writerRef: Value): Value {
    Dict(map k: Key | InReceipt(k) && k != RECEIPT_DIGEST :: ReceiptField(plan, prior, observed, persistedAt, writerRef, k))
  }

  /** `build_owner_execution_checkpoint_receipt_body`. */
  function Receipt(plan: Value, prior: Master, observed: Master, persistedAt: Value, writerRef: Value): Value {
    var body := ReceiptBody(plan, prior, observed, persistedAt, writerRef);
    Dict(body.fields[RECEIPT_DIGEST := Sha(body)])
  }

  // ----------------------------------------------------------------- the checks

  predicate PlanFlagsOk(plan: Value) {
    && RecordFlagsFalse(plan) && NoAuthority(plan) && Get(plan, CHECKPOINT_SAVED) == Bool(false)
    && Get(plan, AUTOMATIC_WRITE) == Bool(false) && Get(plan, ELIGIBLE_AFTER_PERSISTENCE) == Bool(false)
    && Get(plan, REQUIRES_EXPLICIT_SAVE) == Bool(true) && Get(plan, REQUIRES_ATTESTATION) == Bool(true)
  }

  predicate PlanHeadOk(plan: Value) {
    && Get(plan, SCHEMA) == Text(PlanSchema) && Get(plan, STATE) == Text(ReadyForPersistence) && PlanFlagsOk(plan)
    && IsDecision(DecisionOf(plan))
    && (forall k: Key | CUSTOMER_ID <= k <= ACTION_FAMILY :: !Blank(Get(plan, k), 180))
    && Get(plan, EXECUTION_RECORD_DIGEST).Sha? && Get(plan, CHECKPOINT_STATE_DIGEST).Sha?
  }

  predicate CandidateOk(plan: Value, candidate: Value) {
    && Get(candidate, SCHEMA) == Text(PatchSchema) && Get(candidate, STATE) == Text(PatchCandidateState)
    && Get(candidate, EXPECTED_STATE_DIGEST) == Get(plan, CHECKPOINT_STATE_DIGEST)
    && Get(candidate, EXPECTED_REVISION).Int? && !Blank(Get(candidate, RECOMMENDED_EVENT_ID), 160)
    && Get(candidate, PATCH).Dict? && Get(candidate, PATCH).fields.Keys == {EXECUTION_NAMESPACE}
    && Get(candidate, PATCH_DIGEST) == Sha(Get(candidate, PATCH))
  }

  predicate PatchRecordOk(plan: Value, record: Value) {
    && Get(record, SCHEMA) == Text(ResultSchema) && Get(record, EXECUTION_DECISION) == DecisionOf(plan)
    && RecordFlagsFalse(record) && NoAuthority(record)
    && Get(record, EXECUTION_RECORD_DIGEST) == Get(plan, EXECUTION_RECORD_DIGEST)
  }

  function PlannedRecord(plan: Value): Value {
    Get(Get(Get(plan, PATCH_CANDIDATE), PATCH), EXECUTION_NAMESPACE)
  }

  /** `_validate_plan` finds nothing. */
  predicate PlanOk(plan: Value) {
    && PlanHeadOk(plan) && CandidateOk(plan, Get(plan, PATCH_CANDIDATE))
    && PlannedRecord(plan).Dict? && PatchRecordOk(plan, PlannedRecord(plan))
  }

  function EvidenceOf(plan: Value): seq<Value> {
    [Get(plan, EXECUTION_RECORD_DIGEST), Get(plan, CUSTOMER_ID), Get(plan, PILOT_ID), Get(plan, REQUESTED_CHOICE),
     Get(plan, ACTION_FAMILY), Get(plan, EXECUTION_DECISION)]
  }

  /** The append that the plan asks for, with the creation time of the observed event. */
  function Expected(plan: Value, prior: Master, createdAt: Value, clock: Value): Option<Master> {
    var candidate := Get(plan, PATCH_CANDIDATE);
    if !Get(candidate, EXPECTED_REVISION).Int? then None
    else
      Append(prior, Get(candidate, RECOMMENDED_EVENT_ID), Get(candidate, PATCH), Get(candidate, EXPECTED_REVISION).n,
             createdAt, clock, EvidenceOf(plan))
  }

  predicate MastersOk(plan: Value, prior: Master, observed: Master, clock: Value) {
    var candidate := Get(plan, PATCH_CANDIDATE);
    var before, after := Reconstruct(prior), Reconstruct(observed);
    && before.Some? && after.Some? && observed.journal != []
    && Get(candidate, EXPECTED_REVISION) == Int(before.value.revision)
    && Get(candidate, EXPECTED_STATE_DIGEST) == before.value.stateDigest
    && var last := observed.journal[|observed.journal| - 1];
       var expected := Expected(plan, prior, last.createdAt, clock);
       && expected.Some? && MasterDigest(expected.value) == MasterDigest(observed)
       && after.value.revision == before.value.revision + 1
       && expected.value.journal != [] && last == expected.value.journal[|expected.value.journal| - 1]
       && Get(Dict(after.value.snapshot), EXECUTION_NAMESPACE) == PlannedRecord(plan)
  }

  /** The receipt repeats the plan and both masters exactly. */
  predicate ReceiptMatches(plan: Value, prior: Master, observed: Master, receipt: Value) {
    var candidate := Get(plan, PATCH_CANDIDATE);
    && WA.HasReceiptConstants(receipt)
    && Get(receipt, EVENT_ID) == Get(candidate, RECOMMENDED_EVENT_ID)
    && Get(receipt, PATCH_DIGEST) == Get(candidate, PATCH_DIGEST)
    && Get(receipt, EXECUTION_RECORD_DIGEST) == Get(plan, EXECUTION_RECORD_DIGEST)
    && (forall k: Key | CUSTOMER_ID <= k <= ACTION_FAMILY :: Get(receipt, k) == Get(plan, k))
    && Get(receipt, EXECUTION_DECISION) == Get(plan, EXECUTION_DECISION)
    && Get(receipt, BASE_REVISION) == Int(prior.revision) && Get(receipt, REVISION) == Int(observed.revision)
    && Get(receipt, BEFORE_CHECKPOINT_DIGEST) == MasterDigest(prior)
    && Get(receipt, AFTER_CHECKPOINT_DIGEST) == MasterDigest(observed)
  }

  predicate ReceiptOk(receipt: Value, now: Value) {
    && receipt.Dict?
    && (forall k: Key | WA.IsReceiptFalse(k) :: Get(receipt, k) == Bool(false))
    && !Blank(Get(receipt, WRITER_REF), 240)
    && Get(receipt, RECEIPT_DIGEST) == Sha(WA.ReceiptBody(receipt))
    && Get(receipt, PERSISTED_AT).Stamp? && now.Stamp?
    && 0 <= now.us - Get(receipt, PERSISTED_AT).us <= MAX_RECEIPT_AGE
  }

  // ------------------------------------------------------------------ the result

  predicate InResult(k: Key) {
    || SCHEMA <= k <= SCOPE || k == EXECUTION_DECISION || OWNER_ID <= k <= REVIEW_TYPE
    || ACTION_RECORD_DIGEST <= k <= EXECUTION_RECORD_DIGEST || RECORD_PERSISTED <= k <= COMMAND_EXECUTED
    || k == CHECKPOINT_REVISION || k == CHECKPOINT_STATE_DIGEST || k == BEFORE_CHECKPOINT_DIGEST
    || AFTER_CHECKPOINT_DIGEST <= k <= STORAGE_WRITE_PERFORMED || IsAuthority(k)
  }

  function ResultField(plan: Value, prior: Master, observed: Master, receipt: Value, k: Key): Value {
    if STORAGE_WRITE_PERFORMED <= k then Bool(false)
    else if k == ELIGIBLE_FOR_COMMAND_PLANNING then Bool(Get(plan, EXECUTION_DECISION) == Text(Authorize))
    else if PERSISTENCE_ATTESTED <= k then Bool(true)
    else if k == WRITER_IDENTITY_VERIFIED then Bool(false)
    else if k == RECEIPT_DIGEST then Get(receipt, RECEIPT_DIGEST)
    else if k == AFTER_CHECKPOINT_DIGEST then MasterDigest(observed)
    else if k == BEFORE_CHECKPOINT_DIGEST then MasterDigest(prior)
    else if k == CHECKPOINT_STATE_DIGEST then observed.stateDigest
    else if k == CHECKPOINT_REVISION then Int(observed.revision)
    else if k == RECORD_PERSISTED then Bool(true)
    else if COMMAND_GENERATED <= k then Bool(false)
    else if k == EXECUTION_RECORD_DIGEST then Get(plan, k)
    else if ACTION_RECORD_DIGEST <= k then TextOf(Get(PlannedRecord(plan), k), 180)
    else if EXECUTION_DECISION <= k then Get(plan, k)
    else if k == SCOPE then Dict(map f: Key | OWNER_ID <= f <= WORKSPACE_ID :: Get(plan, f))
    else if k == BLOCKERS then List([])
    else if k == STATE then Text(PersistenceAttestedState)
    else Text(AttestationSchema)
  }

  function Attested(plan: Value, prior: Master, observed: Master, receipt: Value): Value {
    Dict(map k: Key | InResult(k) :: ResultField(plan, prior, observed, receipt, k))
  }

  /** `verify_owner_execution_record_persistence`: the attestation, or nothing when any
      blocker is found. */
  function Attest(
    plan: Value, prior: Master, observed: Master, receipt: Value, now: Value, clock: Value): Option<Value>
  {
    if PlanOk(plan) && MastersOk(plan, prior, observed, clock) && ReceiptMatches(plan, prior, observed, receipt)
       && ReceiptOk(receipt, now) then Some(Attested(plan, prior, observed, receipt))
    else None
  }

  // ---------------------------------------------------------- what it proves

  /** The journal of `longer` is that of `m` plus this one event. */
  predicate OneMore(m: Master, longer: Master, e: Event) {
    longer.journal == m.journal + [e]
  }

  lemma {:induction false} AppendedLast(plan: Value, prior: Master, observed: Master, clock: Value)
    requires PlanOk(plan) && MastersOk(plan, prior, observed, clock)
    ensures var last := observed.journal[|observed.journal| - 1];
            var candidate := Get(plan, PATCH_CANDIDATE);
            && Expected(plan, prior, last.createdAt, clock).Some?
            && !Known(prior.journal, Get(candidate, RECOMMENDED_EVENT_ID))
  {
    var last := observed.journal[|observed.journal| - 1];
    var candidate := Get(plan, PATCH_CANDIDATE);
    if Known(prior.journal, Get(candidate, RECOMMENDED_EVENT_ID)) {
      DigestFields(prior, observed);
      assert false;
    }
  }

  lemma {:induction false} ObservedIsExpected(plan: Value, prior: Master, observed: Master, clock: Value)
    requires PlanOk(plan) && MastersOk(plan, prior, observed, clock)
    ensures Expected(plan, prior, observed.journal[|observed.journal| - 1].createdAt, clock) == Some(observed)
  {
    var createdAt, candidate := observed.journal[|observed.journal| - 1].createdAt, Get(plan, PATCH_CANDIDATE);
    AppendedLast(plan, prior, observed, clock);
    AppendIsExact(prior, Get(candidate, RECOMMENDED_EVENT_ID), Get(candidate, PATCH),
                  Get(candidate, EXPECTED_REVISION).n, createdAt, clock, EvidenceOf(plan));
    DigestDetermines(Expected(plan, prior, createdAt, clock).value, observed);
  }

  lemma {:induction false} MergeKeepsAllOthers(target: map<Key, Value>, patch: map<Key, Value>, key: Key)
    requires patch.Keys == {key}
    ensures forall k: Key | k != key :: Get(Dict(Merge(target, patch)), k) == Get(Dict(target), k)
  {
    forall k: Key | k != key
      ensures Get(Dict(Merge(target, patch)), k) == Get(Dict(target), k)
    {
      MergeKeepsOthers(target, patch, k);
    }
  }

  /** The exact effect of appending a patch for one key. */
  lemma {:induction false} AppendedUnder(
    m: Master, m': Master, id: Value, patch: Value, expected: int, createdAt: Value, clock: Value, refs: seq<Value>, key: Key)
    requires Append(m, id, patch, expected, createdAt, clock, refs) == Some(m') && !Known(m.journal, id)
    requires patch.Dict? && patch.fields.Keys == {key}
    ensures Reconstruct(m).Some? && Reconstruct(m').Some? && m'.journal != []
    ensures var e := m'.journal[|m'.journal| - 1];
            OneMore(m, m', e) && e.id == id && e.patch == patch && e.baseRevision == expected
    ensures forall k: Key | k != key ::
              Get(Dict(Reconstruct(m').value.snapshot), k) == Get(Dict(Reconstruct(m).value.snapshot), k)
  {
    AppendIsExact(m, id, patch, expected, createdAt, clock, refs);
    MergeKeepsAllOthers(Reconstruct(m).value.snapshot, patch.fields, key);
  }

  /** An attested result means that the observed journal is the prior journal plus exactly
      one event carrying the planned patch under the planned id, that the revision went up
      by one, that the record stands in its namespace and that every other namespace is as
      it was. */
  lemma {:induction false} AttestedIsExactAppend(
    plan: Value, prior: Master, observed: Master, receipt: Value, now: Value, clock: Value)
    requires Attest(plan, prior, observed, receipt, now, clock).Some?
    ensures Reconstruct(prior).Some? && Reconstruct(observed).Some? && observed.journal != []
    ensures var e, candidate := observed.journal[|observed.journal| - 1], Get(plan, PATCH_CANDIDATE);
            && OneMore(prior, observed, e)
            && e.id == Get(candidate, RECOMMENDED_EVENT_ID) && e.patch == Get(candidate, PATCH)
            && Int(e.baseRevision) == Get(candidate, EXPECTED_REVISION)
    ensures observed.revision == prior.revision + 1
    ensures Get(Dict(Reconstruct(observed).value.snapshot), EXECUTION_NAMESPACE) == PlannedRecord(plan)
    ensures forall k: Key | k != EXECUTION_NAMESPACE ::
              Get(Dict(Reconstruct(observed).value.snapshot), k) == Get(Dict(Reconstruct(prior).value.snapshot), k)
  {
    var candidate := Get(plan, PATCH_CANDIDATE);
    AppendedLast(plan, prior, observed, clock);
    ObservedIsExpected(plan, prior, observed, clock);
    AppendedUnder(prior, observed, Get(candidate, RECOMMENDED_EVENT_ID), Get(candidate, PATCH),
                  Get(candidate, EXPECTED_REVISION).n, observed.journal[|observed.journal| - 1].createdAt, clock,
                  EvidenceOf(plan), EXECUTION_NAMESPACE);
  }

  /** `m` is a state of the history that ends in `latest`. */
  predicate InHistory(m: Master, latest: Master) {
    m.base == latest.base && m.baseRevision == latest.baseRevision && m.journal <= latest.journal
  }

  lemma {:induction false} OneMasterPerRevision(a: Master, b: Master, latest: Master)
    requires Reconstruct(a).Some? && Reconstruct(b).Some? && a.revision == b.revision
    requires InHistory(a, latest) && InHistory(b, latest)
    ensures a.journal == b.journal
  {
    ReconstructedChain(a);
    ReconstructedChain(b);
    assert a.journal == latest.journal[..|a.journal|] && b.journal == latest.journal[..|b.journal|];
  }

  lemma {:induction false} PlannedInPatch(plan: Value, patch: Value)
    requires patch == Get(Get(plan, PATCH_CANDIDATE), PATCH)
    ensures PlannedRecord(plan) == Get(patch, EXECUTION_NAMESPACE)
  {
  }

  /** The event that an attestation is about. */
  lemma {:induction false} AttestedEvent(
    plan: Value, prior: Master, observed: Master, receipt: Value, now: Value, clock: Value)
    returns (e: Event)
    requires Attest(plan, prior, observed, receipt, now, clock).Some?
    ensures Reconstruct(observed).Some? && observed.journal != [] && e == observed.journal[|observed.journal| - 1]
    ensures Get(Get(plan, PATCH_CANDIDATE), EXPECTED_REVISION) == Int(observed.revision - 1)
    ensures Get(Get(plan, PATCH_CANDIDATE), RECOMMENDED_EVENT_ID) == e.id
    ensures PlannedRecord(plan) == Get(e.patch, EXECUTION_NAMESPACE)
  {
    AttestedIsExactAppend(plan, prior, observed, receipt, now, clock);
    e := observed.journal[|observed.journal| - 1];
    PlannedInPatch(plan, e.patch);
  }

  /** In one linear history two plans that were prepared at the same revision under
      different event ids are never both attested: the append is compare-and-set. */
  lemma {:induction false} NoTwoPlansAtOneRevision(
    plan1: Value, prior1: Master, observed1: Master, receipt1: Value, now1: Value, clock1: Value,
    plan2: Value, prior2: Master, observed2: Master, receipt2: Value, now2: Value, clock2: Value, latest: Master)
    requires Attest(plan1, prior1, observed1, receipt1, now1, clock1).Some?
    requires Attest(plan2, prior2, observed2, receipt2, now2, clock2).Some?
    requires InHistory(observed1, latest) && InHistory(observed2, latest)
    requires Get(Get(plan1, PATCH_CANDIDATE), EXPECTED_REVISION) == Get(Get(plan2, PATCH_CANDIDATE), EXPECTED_REVISION)
    ensures Get(Get(plan1, PATCH_CANDIDATE), RECOMMENDED_EVENT_ID) == Get(Get(plan2, PATCH_CANDIDATE), RECOMMENDED_EVENT_ID)
    ensures PlannedRecord(plan1) == PlannedRecord(plan2)
  {
    var e1 := AttestedEvent(plan1, prior1, observed1, receipt1, now1, clock1);
    var e2 := AttestedEvent(plan2, prior2, observed2, receipt2, now2, clock2);
    OneMasterPerRevision(observed1, observed2, latest);
  }
}
