/** Lineage: what each stage hands on to the next, so that a command plan can be traced
    back to the one request that the owner signed. */
module Lineage {
  import opened Wrappers
  import opened Records
  import opened Checkpoints
  import opened PersistencePlan
  import opened PersistenceAttestation
  import opened CommandPlan
  import EC = ExecutionCeremony
  import WA = WriterAttestation
  import SS = SignedStep

  /** Subject, scope and preflight digests are those of the signed request. */
  predicate IsSubject(k: Key) { OWNER_ID <= k <= REVIEW_TYPE }

  /** `row` repeats the subject and the decision of `request`. */
  predicate Repeats(row: Value, request: Value) {
    && Get(row, EXECUTION_DECISION) == Get(request, DECISION)
    && (forall k: Key | IsSubject(k) :: Get(row, k) == Get(request, k))
    && Get(row, EXECUTION_RECORD_DIGEST) == Sha(EC.Record(request))
  }

  /** `row` repeats the lineage digests of `request`, and its own digest. */
  predicate RepeatsLineage(row: Value, request: Value) {
    && (forall k: Key | IsPreflightDigest(k) :: Get(row, k) == Get(request, k))
    && Get(row, EXECUTION_REQUEST_DIGEST) == Sha(request)
  }

  // ------------------------------------------------------------------ the request

  lemma {:induction false} RequestDigest(preflight: Value, t: SS.Terms, fingerprint: Value, k: Key)
    requires IsPreflightDigest(k)
    ensures Get(EC.Body(preflight, t, fingerprint), k) == TextOf(Get(preflight, k), 180)
  {
  }

  lemma {:induction false} RequestDigests(preflight: Value, t: SS.Terms, fingerprint: Value)
    requires forall k: Key | IsPreflightDigest(k) :: Get(preflight, k).Sha?
    ensures forall k: Key | IsPreflightDigest(k) :: Get(EC.Body(preflight, t, fingerprint), k) == Get(preflight, k)
  {
    forall k: Key | IsPreflightDigest(k)
      ensures Get(EC.Body(preflight, t, fingerprint), k) == Get(preflight, k)
    {
      RequestDigest(preflight, t, fingerprint, k);
    }
  }

  // ------------------------------------------------------ the decision and its plan

  lemma {:induction false} DecisionFields(request: Value)
    ensures var row := EC.VerifiedDecision(request);
            && Get(row, EXECUTION_DECISION) == Get(request, DECISION)
            && Get(row, EXECUTION_RECORD) == EC.Record(request)
            && Get(row, EXECUTION_RECORD_DIGEST) == Sha(EC.Record(request))
            && NoAuthority(row)
  {
  }

  lemma {:induction false} RecordFields(request: Value)
    ensures var record := EC.Record(request);
            && (forall k: Key | IsSubject(k) || IsPreflightDigest(k) :: Get(record, k) == Get(request, k))
            && Get(record, EXECUTION_REQUEST_DIGEST) == Sha(request)
            && NoAuthority(record)
  {
  }

  lemma {:induction false} PlanFields(row: Value, current: Current)
    ensures var plan := PlanFor(row, current);
            && Get(plan, EXECUTION_DECISION) == DecisionOf(row)
            && (forall k: Key | IsSubject(k) :: Get(plan, k) == Get(Get(row, EXECUTION_RECORD), k))
            && Get(plan, EXECUTION_RECORD_DIGEST) == Get(row, EXECUTION_RECORD_DIGEST)
            && Get(plan, PATCH_CANDIDATE) == Candidate(row, current)
            && NoAuthority(plan)
  {
  }

  lemma {:induction false} CandidateFields(row: Value, current: Current)
    ensures var candidate := Candidate(row, current);
            && Get(candidate, PATCH) == PatchOf(row) && Get(candidate, PATCH_DIGEST) == Sha(PatchOf(row))
            && Get(candidate, RECOMMENDED_EVENT_ID) == EventIdOf(row, current)
            && Get(candidate, EXPECTED_REVISION) == Int(current.revision)
            && Get(candidate, EXPECTED_STATE_DIGEST) == current.stateDigest
            && Get(PatchOf(row), EXECUTION_NAMESPACE) == Persisted(row)
            && NoAuthority(candidate)
  {
  }

  lemma {:induction false} PersistedFields(row: Value)
    ensures var persisted, record := Persisted(row), Get(row, EXECUTION_RECORD);
            && (forall k: Key | IsSubject(k) || IsLineageDigest(k) :: Get(persisted, k) == Get(record, k))
            && Get(persisted, EXECUTION_RECORD_DIGEST) == Get(row, EXECUTION_RECORD_DIGEST)
            && Get(persisted, EXECUTION_DECISION) == DecisionOf(row)
            && NoAuthority(persisted)
  {
  }

  lemma {:induction false} PlanForDescends(request: Value, current: Current)
    ensures var plan := PlanFor(EC.VerifiedDecision(request), current);
            && (IsDecision(Get(request, DECISION)) ==>
                  Repeats(plan, request) && RepeatsLineage(PlannedRecord(plan), request))
            && NoAuthority(plan) && NoAuthority(Get(plan, PATCH_CANDIDATE)) && NoAuthority(PlannedRecord(plan))
  {
    var row := EC.VerifiedDecision(request);
    DecisionFields(request);
    RecordFields(request);
    PlanFields(row, current);
    CandidateFields(row, current);
    PersistedFields(row);
  }

  lemma {:induction false} PlannedDecision(row: Value, master: Master)
    requires BuildPlan(row, master).Some?
    ensures Reconstruct(master).Some? && BuildPlan(row, master).value == PlanFor(row, Reconstruct(master).value)
    ensures IsDecision(Get(row, EXECUTION_DECISION))
  {
  }

  /** The plan of a verified decision repeats the signed request, outside and inside the
      patch, and authorises nothing. */
  lemma {:induction false} PlanDescends(request: Value, master: Master)
    requires BuildPlan(EC.VerifiedDecision(request), master).Some?
    ensures var plan := BuildPlan(EC.VerifiedDecision(request), master).value;
            && Repeats(plan, request) && RepeatsLineage(PlannedRecord(plan), request)
            && IsDecision(Get(request, DECISION))
            && NoAuthority(plan) && NoAuthority(Get(plan, PATCH_CANDIDATE)) && NoAuthority(PlannedRecord(plan))
  {
    PlannedDecision(EC.VerifiedDecision(request), master);
    DecisionFields(request);
    PlanForDescends(request, Reconstruct(master).value);
  }

  // -------------------------------------------------------------- the attestation

  lemma {:induction false} AttestedSubject(plan: Value, prior: Master, observed: Master, receipt: Value)
    ensures var row := Attested(plan, prior, observed, receipt);
            && Get(row, EXECUTION_DECISION) == Get(plan, EXECUTION_DECISION)
            && (forall k: Key | IsSubject(k) :: Get(row, k) == Get(plan, k))
            && Get(row, EXECUTION_RECORD_DIGEST) == Get(plan, EXECUTION_RECORD_DIGEST)
  {
  }

  lemma {:induction false} AttestedBinding(plan: Value, prior: Master, observed: Master, receipt: Value)
    ensures var row := Attested(plan, prior, observed, receipt);
            && Get(row, RECEIPT_DIGEST) == Get(receipt, RECEIPT_DIGEST)
            && Get(row, AFTER_CHECKPOINT_DIGEST) == MasterDigest(observed)
            && NoAuthority(row)
  {
  }

  lemma {:induction false} AttestedLineage(plan: Value, prior: Master, observed: Master, receipt: Value, k: Key)
    requires IsLineageDigest(k)
    ensures Get(Attested(plan, prior, observed, receipt), k) == TextOf(Get(PlannedRecord(plan), k), 180)
  {
  }

  lemma {:induction false} AttestedLineages(
    request: Value, plan: Value, prior: Master, observed: Master, receipt: Value)
    requires RepeatsLineage(PlannedRecord(plan), request)
    requires forall k: Key | IsPreflightDigest(k) :: Get(request, k).Sha?
    ensures RepeatsLineage(Attested(plan, prior, observed, receipt), request)
  {
    forall k: Key | IsLineageDigest(k)
      ensures Get(Attested(plan, prior, observed, receipt), k) == Get(PlannedRecord(plan), k)
    {
      AttestedLineage(plan, prior, observed, receipt, k);
      if IsPreflightDigest(k) { assert Get(request, k).Sha?; }
    }
  }

  lemma {:induction false} AttestationDescends(
    request: Value, plan: Value, prior: Master, observed: Master, receipt: Value)
    requires Repeats(plan, request) && RepeatsLineage(PlannedRecord(plan), request)
    requires forall k: Key | IsPreflightDigest(k) :: Get(request, k).Sha?
    ensures var row := Attested(plan, prior, observed, receipt);
            Repeats(row, request) && RepeatsLineage(row, request) && NoAuthority(row)
  {
    AttestedSubject(plan, prior, observed, receipt);
    AttestedBinding(plan, prior, observed, receipt);
    AttestedLineages(request, plan, prior, observed, receipt);
  }

  // ------------------------------------------------------------- the command plan

  lemma {:induction false} WriterFields(request: Value)
    ensures var row := WA.AttestedWriter(request);
            && Get(row, WRITER_REQUEST_DIGEST) == Sha(request)
            && Get(row, RECEIPT_DIGEST) == Get(request, RECEIPT_DIGEST)
            && Get(row, AFTER_CHECKPOINT_DIGEST) == Get(request, AFTER_CHECKPOINT_DIGEST)
            && Get(row, EXECUTION_RECORD_DIGEST) == Get(request, EXECUTION_RECORD_DIGEST)
            && NoAuthority(row)
  {
  }

  /** A command plan that descends from a signed request: its scope, its identities, its
      digests and the digest of the request itself are those that the owner signed. */
  predicate PlanOf(plan: Value, request: Value, writerRequest: Value) {
    && CarriesRequest(plan, request) && CarriesScope(plan, request)
    && Get(plan, ACTION_PARAMETERS_DIGEST) == Get(request, ACTION_PARAMETERS_DIGEST)
    && Get(plan, EXECUTION_PREFLIGHT_DIGEST) == Get(request, EXECUTION_PREFLIGHT_DIGEST)
    && Get(plan, EXECUTION_RECORD_DIGEST) == Sha(EC.Record(request))
    && Get(plan, EXECUTION_REQUEST_DIGEST) == Sha(request)
    && Get(plan, INTENT_WRITER_REQUEST_DIGEST) == Sha(writerRequest)
  }

  predicate CarriesRequest(plan: Value, request: Value) {
    forall k: Key | IsIdentity(k) ::
      Get(plan, k) == if k == PACKAGE then UpperOf(Get(request, k)) else Get(request, k)
  }

  predicate CarriesScope(plan: Value, request: Value) {
    forall k: Key | IsScopeField(k) :: Get(Get(plan, SCOPE), k) == Get(request, k)
  }

  /** The scope of the rebuilt plan is the one that the guard read from the attestation. */
  lemma {:induction false} V2Scope(trusted: ScopeTriple, persisted: Value, writer: Value)
    ensures var out := V2Result(V1Plan(trusted, persisted, writer), persisted);
            Get(out, SCOPE) == Get(Get(out, COMMAND_PLAN), SCOPE) == ScopeDict(trusted)
  {
    V2ResultFields(V1Plan(trusted, persisted, writer), persisted);
  }

  lemma {:induction false} StrictScopeIsRaw(row: Value)
    requires Complete(StrictScope(row))
    ensures Get(row, OWNER_ID) == StrictScope(row).owner && Get(row, TENANT_ID) == StrictScope(row).tenant
    ensures Get(row, WORKSPACE_ID) == StrictScope(row).workspace
  {
    GuardKeepsFixedTexts(Get(row, OWNER_ID), 120);
    GuardKeepsFixedTexts(Get(row, TENANT_ID), 120);
    GuardKeepsFixedTexts(Get(row, WORKSPACE_ID), 120);
  }

  lemma {:induction false} GuardedScope(persisted: Value, writer: Value, preflight: Value)
    requires GuardOk(persisted, writer, preflight)
    ensures StrictScope(persisted) == StrictScope(Get(persisted, SCOPE)) && Complete(StrictScope(persisted))
  {
  }

  lemma {:induction false} ScopeIsCarried(plan: Value, row: Value)
    requires Get(plan, SCOPE) == ScopeDict(StrictScope(row)) && Complete(StrictScope(row))
    ensures CarriesScope(plan, row)
  {
    StrictScopeIsRaw(row);
  }

  lemma {:induction false} PlanScope(persisted: Value, writer: Value, preflight: Value)
    requires BuildV2(persisted, writer, preflight).Some?
    ensures CarriesScope(Get(BuildV2(persisted, writer, preflight).value, COMMAND_PLAN), persisted)
    ensures var out := BuildV2(persisted, writer, preflight).value; Get(out, SCOPE) == Get(Get(out, COMMAND_PLAN), SCOPE)
  {
    V2Steps(persisted, writer, preflight);
    GuardedScope(persisted, writer, preflight);
    V2Scope(StrictScope(persisted), persisted, writer);
    ScopeIsCarried(Get(BuildV2(persisted, writer, preflight).value, COMMAND_PLAN), persisted);
  }

  lemma {:induction false} ScopeFromRequest(plan: Value, persisted: Value, request: Value)
    requires Repeats(persisted, request) && CarriesScope(plan, persisted)
    ensures CarriesScope(plan, request)
  {
    forall k: Key | IsScopeField(k)
      ensures Get(persisted, k) == Get(request, k)
    {
      assert IsSubject(k);
    }
  }

  lemma {:induction false} V2ResultDigests(trusted: ScopeTriple, persisted: Value, writer: Value)
    ensures var out := V2Result(V1Plan(trusted, persisted, writer), persisted);
            var plan := Get(out, COMMAND_PLAN);
            && Get(plan, ACTION_PARAMETERS_DIGEST) == Get(persisted, ACTION_PARAMETERS_DIGEST)
            && Get(plan, EXECUTION_PREFLIGHT_DIGEST) == Get(persisted, EXECUTION_PREFLIGHT_DIGEST)
            && Get(plan, EXECUTION_RECORD_DIGEST) == Get(persisted, EXECUTION_RECORD_DIGEST)
            && Get(plan, EXECUTION_REQUEST_DIGEST) == Get(persisted, EXECUTION_REQUEST_DIGEST)
            && Get(plan, INTENT_WRITER_REQUEST_DIGEST) == TextOf(Get(writer, WRITER_REQUEST_DIGEST), 180)
            && NoAuthority(out)
  {
    V1PlanDigests(trusted, persisted, writer);
    V2ResultFields(V1Plan(trusted, persisted, writer), persisted);
  }

  lemma {:induction false} V2PlanDigests(persisted: Value, writer: Value, preflight: Value)
    requires BuildV2(persisted, writer, preflight).Some?
    ensures var out := BuildV2(persisted, writer, preflight).value;
            var plan := Get(out, COMMAND_PLAN);
            && Get(plan, ACTION_PARAMETERS_DIGEST) == Get(persisted, ACTION_PARAMETERS_DIGEST)
            && Get(plan, EXECUTION_PREFLIGHT_DIGEST) == Get(persisted, EXECUTION_PREFLIGHT_DIGEST)
            && Get(plan, EXECUTION_RECORD_DIGEST) == Get(persisted, EXECUTION_RECORD_DIGEST)
            && Get(plan, EXECUTION_REQUEST_DIGEST) == Get(persisted, EXECUTION_REQUEST_DIGEST)
            && Get(plan, INTENT_WRITER_REQUEST_DIGEST) == TextOf(Get(writer, WRITER_REQUEST_DIGEST), 180)
            && NoAuthority(out)
  {
    V2Steps(persisted, writer, preflight);
    V2ResultDigests(StrictScope(Get(persisted, SCOPE)), persisted, writer);
  }

  lemma {:induction false} V2Needs(persisted: Value, writer: Value, preflight: Value)
    requires BuildV2(persisted, writer, preflight).Some?
    ensures Get(persisted, EXECUTION_DECISION) == Text(Authorize)
    ensures TextOf(Get(writer, RECEIPT_DIGEST), 180) == TextOf(Get(persisted, RECEIPT_DIGEST), 180)
    ensures forall k: Key | IsPreflightDigest(k) :: Get(preflight, k) == Get(persisted, k)
  {
    V2Steps(persisted, writer, preflight);
  }

  lemma {:induction false} CarriedFromRequest(plan: Value, persisted: Value, request: Value)
    requires Repeats(persisted, request) && CarriesIdentities(plan, persisted)
    ensures CarriesRequest(plan, request)
  {
    forall k: Key | IsIdentity(k)
      ensures Get(persisted, k) == Get(request, k)
    {
      assert IsSubject(k);
    }
  }

  lemma {:induction false} CommandDigests(persisted: Value, request: Value, writerRequest: Value, preflight: Value)
    requires Repeats(persisted, request) && RepeatsLineage(persisted, request)
    requires BuildV2(persisted, WA.AttestedWriter(writerRequest), preflight).Some?
    ensures var out := BuildV2(persisted, WA.AttestedWriter(writerRequest), preflight).value;
            var plan := Get(out, COMMAND_PLAN);
            && Get(plan, ACTION_PARAMETERS_DIGEST) == Get(request, ACTION_PARAMETERS_DIGEST)
            && Get(plan, EXECUTION_PREFLIGHT_DIGEST) == Get(request, EXECUTION_PREFLIGHT_DIGEST)
            && Get(plan, EXECUTION_RECORD_DIGEST) == Sha(EC.Record(request))
            && Get(plan, EXECUTION_REQUEST_DIGEST) == Sha(request)
            && Get(plan, INTENT_WRITER_REQUEST_DIGEST) == Sha(writerRequest)
            && NoAuthority(out)
  {
    WriterFields(writerRequest);
    V2PlanDigests(persisted, WA.AttestedWriter(writerRequest), preflight);
    assert IsPreflightDigest(ACTION_PARAMETERS_DIGEST) && IsPreflightDigest(EXECUTION_PREFLIGHT_DIGEST);
  }

  lemma {:induction false} CommandNeeds(persisted: Value, request: Value, writer: Value, preflight: Value)
    requires Repeats(persisted, request) && RepeatsLineage(persisted, request)
    requires BuildV2(persisted, writer, preflight).Some?
    ensures Get(request, DECISION) == Text(Authorize)
    ensures forall k: Key | IsPreflightDigest(k) :: Get(preflight, k) == Get(request, k)
  {
    V2Needs(persisted, writer, preflight);
  }

  /** The last link: from an attestation that descends from `request` and the verified
      acknowledgement of `writerRequest`, a plan is made only if the owner authorised, and
      it then carries exactly what was signed. */
  lemma {:induction false} CommandDescends(persisted: Value, request: Value, writerRequest: Value, preflight: Value)
    requires Repeats(persisted, request) && RepeatsLineage(persisted, request)
    requires BuildV2(persisted, WA.AttestedWriter(writerRequest), preflight).Some?
    ensures Get(request, DECISION) == Text(Authorize)
    ensures var out := BuildV2(persisted, WA.AttestedWriter(writerRequest), preflight).value;
            PlanOf(Get(out, COMMAND_PLAN), request, writerRequest) && NoAuthority(out)
    ensures forall k: Key | IsPreflightDigest(k) :: Get(preflight, k) == Get(request, k)
    ensures TextOf(Get(writerRequest, RECEIPT_DIGEST), 180) == TextOf(Get(persisted, RECEIPT_DIGEST), 180)
  {
    var writer := WA.AttestedWriter(writerRequest);
    WriterFields(writerRequest);
    V2Needs(persisted, writer, preflight);
    CommandNeeds(persisted, request, writer, preflight);
    V2CarriesRawIdentities(persisted, writer, preflight);
    PlanScope(persisted, writer, preflight);
    CarriedFromRequest(Get(BuildV2(persisted, writer, preflight).value, COMMAND_PLAN), persisted, request);
    ScopeFromRequest(Get(BuildV2(persisted, writer, preflight).value, COMMAND_PLAN), persisted, request);
    CommandDigests(persisted, request, writerRequest, preflight);
  }
}
