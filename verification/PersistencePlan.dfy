/** The persistence plan: a patch candidate that would write one verified decision into
    the checkpoint, bound to the revision and the state it was prepared for. */
module PersistencePlan {
  import opened Wrappers
  import opened Records
  import opened Checkpoints

  predicate IsPendingState(v: Value) { v == Text(AuthorizePending) || v == Text(DenyPending) }

  predicate RecordFlagsFalse(row: Value) {
    forall k: Key | RECORD_PERSISTED <= k <= COMMAND_EXECUTED :: Get(row, k) == Bool(false)
  }

  function DecisionOf(row: Value): Value { TextOf(Get(row, EXECUTION_DECISION), 100) }

  function ChoiceOf(row: Value): Value { TextOf(Get(row, REQUESTED_CHOICE), 120) }

  function FamilyOf(row: Value): Value { TextOf(Get(row, ACTION_FAMILY), 120) }

  /** The intent flags agree with the decision. */
  predicate IntentOk(row: Value) {
    var authorize, deny := Get(row, AUTHORIZATION_INTENT) == Bool(true), Get(row, DENIAL_INTENT) == Bool(true);
    && IsDecision(DecisionOf(row))
    && (DecisionOf(row) == Text(Authorize) ==> authorize && !deny)
    && (DecisionOf(row) == Text(Deny) ==> deny && !authorize)
  }

  /** The outer fields of the verified decision. */
  predicate DecisionOk(row: Value) {
    && Get(row, SCHEMA) == Text(ResultSchema) && IsPendingState(Get(row, STATE))
    && Get(row, OWNER_IDENTITY_VERIFIED) == Bool(true) && Get(row, OWNER_SIGNATURE_VERIFIED) == Bool(true)
    && Get(row, DECISION_VERIFIED) == Bool(true) && Get(row, REQUIRES_RECORD_PERSISTENCE) == Bool(true)
    && Get(row, GENERIC_CHAT_ACCEPTED) == Bool(false) && RecordFlagsFalse(row) && NoAuthority(row)
    && IntentOk(row) && ChoiceOf(row) != EMPTY && FamilyOf(row) != EMPTY
  }

  /** The execution record inside the verified decision. */
  predicate RecordOk(row: Value, record: Value) {
    && record.Dict? && record.fields != map[]
    && Get(record, SCHEMA) == Text(ResultSchema) && Get(record, STATE) == Get(row, STATE)
    && Get(record, EXECUTION_DECISION) == DecisionOf(row)
    && Get(record, REQUESTED_CHOICE) == ChoiceOf(row) && Get(record, ACTION_FAMILY) == FamilyOf(row)
    && Get(record, OWNER_SIGNATURE_VERIFIED) == Bool(true) && Get(record, DECISION_VERIFIED) == Bool(true)
    && RecordFlagsFalse(record) && NoAuthority(record)
    && Get(row, EXECUTION_RECORD_DIGEST) == Sha(record)
    && (forall k: Key | OWNER_ID <= k <= REVIEW_TYPE :: !Blank(Get(record, k), 160))
    && (forall k: Key | IsLineageDigest(k) :: Get(record, k).Sha?)
  }

  // ------------------------------------------------------------------- the patch

  predicate InPersisted(k: Key) {
    || k == SCHEMA || k == STATE || k == EXECUTION_DECISION || OWNER_ID <= k <= REVIEW_TYPE
    || ACTION_RECORD_DIGEST <= k <= EXECUTION_RECORD_DIGEST || RECORD_PERSISTED <= k <= COMMAND_EXECUTED
    || OWNER_SIGNATURE_VERIFIED <= k <= ELIGIBLE_AFTER_PERSISTENCE || IsAuthority(k)
  }

  function PersistedField(row: Value, k: Key): Value {
    var record, authorize := Get(row, EXECUTION_RECORD), Get(row, AUTHORIZATION_INTENT) == Bool(true);
    if k == AUTHORIZATION_INTENT || k == ELIGIBLE_AFTER_PERSISTENCE then Bool(authorize)
    else if k == DENIAL_INTENT then Bool(Get(row, DENIAL_INTENT) == Bool(true))
    else if k == OWNER_SIGNATURE_VERIFIED || k == DECISION_VERIFIED then Bool(true)
    else if RECORD_PERSISTED <= k then Bool(false)
    else if k == EXECUTION_RECORD_DIGEST then Get(row, EXECUTION_RECORD_DIGEST)
    else if OWNER_ID <= k then Get(record, k)
    else if k == EXECUTION_DECISION then DecisionOf(row)
    else if k == STATE then Get(row, STATE)
    else Text(ResultSchema)
  }

  /** The record as it will stand in the checkpoint. */
  function Persisted(row: Value): Value {
    Dict(map k: Key | InPersisted(k) :: PersistedField(row, k))
  }

  function PatchOf(row: Value): Value {
    Dict(map[EXECUTION_NAMESPACE := Persisted(row)])
  }

  /** The event id binds the record, its subject, and the checkpoint it was planned on. */
  function EventIdOf(row: Value, current: Current): Value {
    var record := Get(row, EXECUTION_RECORD);
    DerivedId(List([Text(NamespaceName), Get(row, EXECUTION_RECORD_DIGEST), Get(record, CUSTOMER_ID),
                    Get(record, PILOT_ID), ChoiceOf(row), FamilyOf(row), DecisionOf(row),
                    Get(record, EXECUTION_PREFLIGHT_DIGEST), Int(current.revision), current.stateDigest]))
  }

  predicate InCandidate(k: Key) {
    || k == SCHEMA || k == STATE || RECORD_PERSISTED <= k <= COMMAND_EXECUTED
    || CHECKPOINT_SAVED <= k <= REQUIRES_ATTESTATION || EXPECTED_REVISION <= k <= PATCH || k == PATCH_DIGEST
    || IsAuthority(k)
  }

  function CandidateField(row: Value, current: Current, k: Key): Value {
    if IsAuthority(k) then Bool(false)
    else if k == PATCH_DIGEST then Sha(PatchOf(row))
    else if k == PATCH then PatchOf(row)
    else if k == RECOMMENDED_EVENT_ID then EventIdOf(row, current)
    else if k == EXPECTED_STATE_DIGEST then current.stateDigest
    else if k == EXPECTED_REVISION then Int(current.revision)
    else if REQUIRES_EXPLICIT_SAVE <= k then Bool(true)
    else if RECORD_PERSISTED <= k then Bool(false)
    else if k == STATE then Text(PatchCandidateState)
    else Text(PatchSchema)
  }

  function Candidate(row: Value, current: Current): Value {
    Dict(map k: Key | InCandidate(k) :: CandidateField(row, current, k))
  }

  // -------------------------------------------------------------------- the plan

  predicate InPlan(k: Key) {
    || SCHEMA <= k <= BLOCKERS || k == EXECUTION_DECISION || OWNER_ID <= k <= REVIEW_TYPE
    || k == EXECUTION_RECORD_DIGEST || RECORD_PERSISTED <= k <= COMMAND_EXECUTED || k == ELIGIBLE_AFTER_PERSISTENCE
    || PATCH_CANDIDATE <= k <= CHECKPOINT_STATE_DIGEST || IsAuthority(k)
  }

  function PlanField(row: Value, current: Current, k: Key): Value {
    if IsAuthority(k) then Bool(false)
    else if k == CHECKPOINT_STATE_DIGEST then current.stateDigest
    else if k == CHECKPOINT_REVISION then Int(current.revision)
    else if REQUIRES_EXPLICIT_SAVE <= k then Bool(true)
    else if k == PATCH_CANDIDATE then Candidate(row, current)
    else if RECORD_PERSISTED <= k then Bool(false)
    else if k == EXECUTION_RECORD_DIGEST then Get(row, EXECUTION_RECORD_DIGEST)
    else if OWNER_ID <= k then Get(Get(row, EXECUTION_RECORD), k)
    else if k == EXECUTION_DECISION then DecisionOf(row)
    else if k == BLOCKERS then List([])
    else if k == STATE then Text(ReadyForPersistence)
    else Text(PlanSchema)
  }

  function PlanFor(row: Value, current: Current): Value {
    Dict(map k: Key | InPlan(k) :: PlanField(row, current, k))
  }

  /** `build_owner_renewal_action_execution_persistence_plan`: the plan, or nothing when
      any blocker is found. */
  function BuildPlan(row: Value, master: Master): Option<Value> {
    var current := Reconstruct(master);
    if DecisionOk(row) && RecordOk(row, Get(row, EXECUTION_RECORD)) && current.Some? then
      Some(PlanFor(row, current.value))
    else None
  }
}
