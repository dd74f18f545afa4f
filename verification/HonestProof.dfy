/** Honest runs: the attestation of an honest append, and the writer's acknowledgement of
    its receipt. */
module HonestProof {
  import opened Wrappers
  import opened Records
  import opened SignedStep
  import opened Checkpoints
  import opened PersistencePlan
  import opened PersistenceAttestation
  import opened Lineage
  import opened HonestPlan
  import opened HonestAppend
  import CP = CommandPlan
  import EC = ExecutionCeremony
  import WA = WriterAttestation

  // -------------------------------------------------------------------- the plan

  lemma {:induction false} PlanFlags(row: Value, current: Current)
    ensures var plan := PlanFor(row, current);
            && Get(plan, SCHEMA) == Text(PlanSchema) && Get(plan, STATE) == Text(ReadyForPersistence)
            && Get(plan, CHECKPOINT_SAVED) == Bool(false) && Get(plan, AUTOMATIC_WRITE) == Bool(false)
            && Get(plan, ELIGIBLE_AFTER_PERSISTENCE) == Bool(false) && Get(plan, REQUIRES_EXPLICIT_SAVE) == Bool(true)
            && Get(plan, REQUIRES_ATTESTATION) == Bool(true) && RecordFlagsFalse(plan)
            && Get(plan, CHECKPOINT_STATE_DIGEST) == current.stateDigest
  {
  }

  lemma {:induction false} CandidateFlags(row: Value, current: Current)
    ensures var candidate := Candidate(row, current);
            && Get(candidate, SCHEMA) == Text(PatchSchema) && Get(candidate, STATE) == Text(PatchCandidateState)
  {
  }

  lemma {:induction false} PersistedFlags(row: Value)
    ensures Get(Persisted(row), SCHEMA) == Text(ResultSchema) && RecordFlagsFalse(Persisted(row))
  {
  }

  /** The plan of a clean request repeats it field by field. */
  lemma {:induction false} CleanPlanFields(request: Value, current: Current)
    requires CleanRequest(request)
    ensures var plan := PlanFor(EC.VerifiedDecision(request), current);
            && Get(plan, EXECUTION_DECISION) == Get(request, DECISION)
            && (forall k: Key | IsSubject(k) :: Get(plan, k) == Get(request, k))
            && Get(plan, EXECUTION_RECORD_DIGEST) == Sha(EC.Record(request))
            && PlannedRecord(plan) == Persisted(EC.VerifiedDecision(request))
            && FixedSubject(plan)
  {
    var row := EC.VerifiedDecision(request);
    HonestDecision(request);
    DecisionFields(request);
    RecordFields(request);
    PlanFields(row, current);
    CandidateFields(row, current);
    SameSubjectIsFixed(request, PlanFor(row, current));
  }

  lemma {:induction false} CleanPlanHead(request: Value, current: Current)
    requires CleanRequest(request) && current.stateDigest.Sha?
    ensures PlanHeadOk(PlanFor(EC.VerifiedDecision(request), current))
  {
    var row := EC.VerifiedDecision(request);
    var plan := PlanFor(row, current);
    CleanPlanFields(request, current);
    PlanFlags(row, current);
    PlanFields(row, current);
    forall k: Key | CUSTOMER_ID <= k <= ACTION_FAMILY
      ensures !Blank(Get(plan, k), 180)
    {
      assert IsIdentity(k);
      FixedWithin(Get(plan, k), CP.IdentityLimit(k), 180);
    }
  }

  lemma {:induction false} CleanCandidate(row: Value, current: Current)
    requires current.stateDigest.Sha?
    ensures CandidateOk(PlanFor(row, current), Candidate(row, current))
  {
    PlanFlags(row, current);
    CandidateFields(row, current);
    CandidateFlags(row, current);
  }

  lemma {:induction false} CleanPatchRecord(request: Value, current: Current)
    requires CleanRequest(request)
    ensures PatchRecordOk(PlanFor(EC.VerifiedDecision(request), current), Persisted(EC.VerifiedDecision(request)))
  {
    var row := EC.VerifiedDecision(request);
    CleanPlanFields(request, current);
    HonestDecision(request);
    DecisionFields(request);
    PersistedFields(row);
    PersistedFlags(row);
  }

  lemma {:induction false} CleanPlanIsOk(request: Value, current: Current)
    requires CleanRequest(request) && current.stateDigest.Sha?
    ensures PlanOk(PlanFor(EC.VerifiedDecision(request), current))
  {
    var row := EC.VerifiedDecision(request);
    CleanPlanHead(request, current);
    CleanPlanFields(request, current);
    PlanFields(row, current);
    CleanCandidate(row, current);
    CleanPatchRecord(request, current);
  }

  // ------------------------------------------------------------------- the masters

  /** The creation time decides the event; the clock is not read when it is given. */
  lemma {:induction false} AppendIgnoresClock(
    m: Master, id: Value, patch: Value, expected: int, createdAt: Value, clock: Value, clock': Value, refs: seq<Value>)
    requires createdAt.Stamp?
    ensures Append(m, id, patch, expected, createdAt, clock, refs) == Append(m, id, patch, expected, createdAt, clock', refs)
  {
  }

  /** What an honest store has written: the planned event, with its evidence, at a time. */
  predicate Stored(plan: Value, prior: Master, observed: Master, createdAt: Value, clock: Value) {
    createdAt.Stamp? && Expected(plan, prior, createdAt, clock) == Some(observed)
    && !Known(prior.journal, Get(Get(plan, PATCH_CANDIDATE), RECOMMENDED_EVENT_ID))
  }

  /** The last event of an honest append. */
  lemma {:induction false} StoredEvent(
    m: Master, m': Master, id: Value, patch: Value, expected: int, createdAt: Value, clock: Value, refs: seq<Value>)
    requires createdAt.Stamp? && Append(m, id, patch, expected, createdAt, clock, refs) == Some(m') && !Known(m.journal, id)
    ensures Reconstruct(m).Some? && Reconstruct(m').Some? && m'.journal != []
    ensures m'.journal[|m'.journal| - 1].createdAt == createdAt
    ensures Reconstruct(m').value.revision == Reconstruct(m).value.revision + 1
  {
    AppendIsExact(m, id, patch, expected, createdAt, clock, refs);
    assert m'.journal[|m'.journal| - 1] == NextEvent(m, Reconstruct(m).value, id, patch, createdAt, clock, refs);
  }

  lemma {:induction false} StoredIsExpected(
    plan: Value, prior: Master, observed: Master, createdAt: Value, clock: Value, clock': Value)
    requires Stored(plan, prior, observed, createdAt, clock)
    ensures Expected(plan, prior, createdAt, clock') == Some(observed)
    ensures Reconstruct(prior).Some? && Reconstruct(observed).Some? && observed.journal != []
    ensures observed.journal[|observed.journal| - 1].createdAt == createdAt
    ensures Reconstruct(observed).value.revision == Reconstruct(prior).value.revision + 1
  {
    var candidate := Get(plan, PATCH_CANDIDATE);
    var id, patch, revision := Get(candidate, RECOMMENDED_EVENT_ID), Get(candidate, PATCH), Get(candidate, EXPECTED_REVISION).n;
    StoredEvent(prior, observed, id, patch, revision, createdAt, clock, EvidenceOf(plan));
    AppendIgnoresClock(prior, id, patch, revision, createdAt, clock, clock', EvidenceOf(plan));
  }

  lemma {:induction false} StoredMastersAreOk(
    plan: Value, prior: Master, observed: Master, createdAt: Value, clock: Value, clock': Value)
    requires Stored(plan, prior, observed, createdAt, clock) && Reconstruct(prior).Some?
    requires Get(Get(plan, PATCH_CANDIDATE), EXPECTED_REVISION) == Int(Reconstruct(prior).value.revision)
    requires Get(Get(plan, PATCH_CANDIDATE), EXPECTED_STATE_DIGEST) == Reconstruct(prior).value.stateDigest
    requires Reconstruct(observed).Some?
          && Get(Dict(Reconstruct(observed).value.snapshot), EXECUTION_NAMESPACE) == PlannedRecord(plan)
    ensures MastersOk(plan, prior, observed, clock')
  {
    StoredIsExpected(plan, prior, observed, createdAt, clock, clock');
  }

  // ------------------------------------------------------------------- the receipt

  lemma {:induction false} ReceiptIsBodyAndDigest(
    plan: Value, prior: Master, observed: Master, persistedAt: Value, writerRef: Value)
    ensures var receipt, body := Receipt(plan, prior, observed, persistedAt, writerRef),
                                 ReceiptBody(plan, prior, observed, persistedAt, writerRef);
            && Get(receipt, RECEIPT_DIGEST) == Sha(body) && WA.ReceiptBody(receipt) == body
            && (forall k: Key | k != RECEIPT_DIGEST :: Get(receipt, k) == Get(body, k))
  {
    var body := ReceiptBody(plan, prior, observed, persistedAt, writerRef);
    assert body.fields[RECEIPT_DIGEST := Sha(body)] - {RECEIPT_DIGEST} == body.fields;
  }

  lemma {:induction false} ReceiptConstants(
    plan: Value, prior: Master, observed: Master, persistedAt: Value, writerRef: Value)
    ensures WA.HasReceiptConstants(ReceiptBody(plan, prior, observed, persistedAt, writerRef))
  {
  }

  lemma {:induction false} BodyField(
    plan: Value, prior: Master, observed: Master, persistedAt: Value, writerRef: Value, k: Key)
    requires InReceipt(k) && k != RECEIPT_DIGEST
    ensures Get(ReceiptBody(plan, prior, observed, persistedAt, writerRef), k)
         == ReceiptField(plan, prior, observed, persistedAt, writerRef, k)
  {
  }

  lemma {:induction false} ReceiptFlag(
    plan: Value, prior: Master, observed: Master, persistedAt: Value, writerRef: Value)
    ensures var body := ReceiptBody(plan, prior, observed, persistedAt, writerRef);
            && Get(body, COMMAND_GENERATED) == Bool(false) && Get(body, COMMAND_EXECUTED) == Bool(false)
            && Get(body, WRITER_IDENTITY_VERIFIED) == Bool(false)
  {
    BodyField(plan, prior, observed, persistedAt, writerRef, COMMAND_GENERATED);
    BodyField(plan, prior, observed, persistedAt, writerRef, COMMAND_EXECUTED);
    BodyField(plan, prior, observed, persistedAt, writerRef, WRITER_IDENTITY_VERIFIED);
  }

  lemma {:induction false} ReceiptAuthority(
    plan: Value, prior: Master, observed: Master, persistedAt: Value, writerRef: Value)
    ensures var body := ReceiptBody(plan, prior, observed, persistedAt, writerRef);
            && Get(body, BUSINESS_ACTION_AUTHORIZED) == Bool(false)
            && Get(body, EXTERNAL_ACTION_EXECUTED) == Bool(false)
  {
    BodyField(plan, prior, observed, persistedAt, writerRef, BUSINESS_ACTION_AUTHORIZED);
    BodyField(plan, prior, observed, persistedAt, writerRef, EXTERNAL_ACTION_EXECUTED);
  }

  lemma {:induction false} AllReceiptFlags(body: Value)
    requires Get(body, COMMAND_GENERATED) == Get(body, COMMAND_EXECUTED) == Bool(false)
    requires Get(body, WRITER_IDENTITY_VERIFIED) == Get(body, BUSINESS_ACTION_AUTHORIZED) == Bool(false)
    requires Get(body, EXTERNAL_ACTION_EXECUTED) == Bool(false)
    ensures forall k: Key | WA.IsReceiptFalse(k) :: Get(body, k) == Bool(false)
  {
  }

  lemma {:induction false} ReceiptFlags(
    plan: Value, prior: Master, observed: Master, persistedAt: Value, writerRef: Value)
    ensures forall k: Key | WA.IsReceiptFalse(k) ::
              Get(ReceiptBody(plan, prior, observed, persistedAt, writerRef), k) == Bool(false)
  {
    ReceiptFlag(plan, prior, observed, persistedAt, writerRef);
    ReceiptAuthority(plan, prior, observed, persistedAt, writerRef);
    AllReceiptFlags(ReceiptBody(plan, prior, observed, persistedAt, writerRef));
  }

  lemma {:induction false} ReceiptBinding(
    plan: Value, prior: Master, observed: Master, persistedAt: Value, writerRef: Value)
    ensures var body, candidate := ReceiptBody(plan, prior, observed, persistedAt, writerRef), Get(plan, PATCH_CANDIDATE);
            && Get(body, EVENT_ID) == TextOf(Get(candidate, RECOMMENDED_EVENT_ID), 160)
            && Get(body, PATCH_DIGEST) == TextOf(Get(candidate, PATCH_DIGEST), 180)
            && Get(body, PERSISTED_AT) == TextOf(persistedAt, 80) && Get(body, WRITER_REF) == TextOf(writerRef, 240)
  {
  }

  lemma {:induction false} ReceiptMasters(
    plan: Value, prior: Master, observed: Master, persistedAt: Value, writerRef: Value)
    ensures var body := ReceiptBody(plan, prior, observed, persistedAt, writerRef);
            && Get(body, BASE_REVISION) == Int(prior.revision) && Get(body, REVISION) == Int(observed.revision)
            && Get(body, BEFORE_CHECKPOINT_DIGEST) == MasterDigest(prior)
            && Get(body, AFTER_CHECKPOINT_DIGEST) == MasterDigest(observed)
  {
  }

  lemma {:induction false} ReceiptSubject(
    plan: Value, prior: Master, observed: Master, persistedAt: Value, writerRef: Value)
    ensures var body := ReceiptBody(plan, prior, observed, persistedAt, writerRef);
            && (forall k: Key | CUSTOMER_ID <= k <= ACTION_FAMILY :: Get(body, k) == TextOf(Get(plan, k), 120))
            && Get(body, EXECUTION_DECISION) == TextOf(Get(plan, EXECUTION_DECISION), 100)
            && Get(body, EXECUTION_RECORD_DIGEST) == TextOf(Get(plan, EXECUTION_RECORD_DIGEST), 180)
  {
  }

  /** The receipt repeats the request. */
  predicate ReceiptRepeats(receipt: Value, request: Value) {
    && WA.HasReceiptConstants(receipt) && (forall k: Key | WA.IsReceiptFalse(k) :: Get(receipt, k) == Bool(false))
    && (forall k: Key | CUSTOMER_ID <= k <= ACTION_FAMILY :: Get(receipt, k) == Get(request, k))
    && Get(receipt, EXECUTION_DECISION) == Get(request, DECISION)
    && Get(receipt, EXECUTION_RECORD_DIGEST) == Sha(EC.Record(request))
  }

  /** The receipt binds the patch candidate and both masters, and digests itself. */
  predicate ReceiptBinds(receipt: Value, candidate: Value, prior: Master, observed: Master) {
    && receipt.Dict?
    && Get(receipt, EVENT_ID) == Get(candidate, RECOMMENDED_EVENT_ID)
    && Get(receipt, PATCH_DIGEST) == Get(candidate, PATCH_DIGEST)
    && Get(receipt, BASE_REVISION) == Int(prior.revision) && Get(receipt, REVISION) == Int(observed.revision)
    && Get(receipt, BEFORE_CHECKPOINT_DIGEST) == MasterDigest(prior)
    && Get(receipt, AFTER_CHECKPOINT_DIGEST) == MasterDigest(observed)
    && Get(receipt, RECEIPT_DIGEST) == Sha(WA.ReceiptBody(receipt))
  }

  lemma {:induction false} ReceiptOfPlan(
    request: Value, plan: Value, prior: Master, observed: Master, persistedAt: Value, writerRef: Value)
    requires CleanRequest(request) && Repeats(plan, request)
    ensures ReceiptRepeats(Receipt(plan, prior, observed, persistedAt, writerRef), request)
  {
    ReceiptIsBodyAndDigest(plan, prior, observed, persistedAt, writerRef);
    ReceiptConstants(plan, prior, observed, persistedAt, writerRef);
    ReceiptFlags(plan, prior, observed, persistedAt, writerRef);
    ReceiptSubject(plan, prior, observed, persistedAt, writerRef);
    forall k: Key | CUSTOMER_ID <= k <= ACTION_FAMILY
      ensures TextOf(Get(plan, k), 120) == Get(request, k)
    {
      assert IsIdentity(k) && IsSubject(k) && Fixed(Get(request, k), CP.IdentityLimit(k));
    }
  }

  lemma {:induction false} ReceiptOfMasters(
    plan: Value, prior: Master, observed: Master, persistedAt: Value, writerRef: Value)
    requires Get(Get(plan, PATCH_CANDIDATE), RECOMMENDED_EVENT_ID).DerivedId?
    requires Get(Get(plan, PATCH_CANDIDATE), PATCH_DIGEST).Sha?
    ensures var receipt := Receipt(plan, prior, observed, persistedAt, writerRef);
            && ReceiptBinds(receipt, Get(plan, PATCH_CANDIDATE), prior, observed)
            && Get(receipt, PERSISTED_AT) == TextOf(persistedAt, 80) && Get(receipt, WRITER_REF) == TextOf(writerRef, 240)
  {
    ReceiptIsBodyAndDigest(plan, prior, observed, persistedAt, writerRef);
    ReceiptBinding(plan, prior, observed, persistedAt, writerRef);
    ReceiptMasters(plan, prior, observed, persistedAt, writerRef);
  }
}
