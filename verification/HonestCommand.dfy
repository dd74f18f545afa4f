/** Honest runs: the command plan built from an honest attestation and acknowledgement. */
module HonestCommand {
  import opened Wrappers
  import opened Records
  import opened InputGuard
  import opened SignedStep
  import opened Checkpoints
  import opened PersistenceAttestation
  import opened CommandPlan
  import opened Lineage
  import opened HonestPlan
  import opened HonestProof
  import EC = ExecutionCeremony
  import WA = WriterAttestation

  // ------------------------------------------------------ the attestation as input

  lemma {:induction false} AttestedFlags(plan: Value, prior: Master, observed: Master, receipt: Value)
    ensures var row := Attested(plan, prior, observed, receipt);
            && Get(row, SCHEMA) == Text(AttestationSchema) && Get(row, STATE) == Text(PersistenceAttestedState)
            && Get(row, RECORD_PERSISTED) == Bool(true) && Get(row, PERSISTENCE_ATTESTED) == Bool(true)
            && Get(row, RECEIPT_CONSISTENCY_VERIFIED) == Bool(true)
            && Get(row, WRITER_IDENTITY_VERIFIED) == Bool(false)
            && Get(row, STORAGE_WRITE_PERFORMED) == Bool(false)
  {
  }

  lemma {:induction false} AttestedEligible(plan: Value, prior: Master, observed: Master, receipt: Value)
    ensures var row := Attested(plan, prior, observed, receipt);
            && Get(row, ELIGIBLE_FOR_COMMAND_PLANNING) == Bool(Get(plan, EXECUTION_DECISION) == Text(Authorize))
            && Get(row, COMMAND_GENERATED) == Bool(false) && Get(row, COMMAND_EXECUTED) == Bool(false)
            && (forall k: Key | IsScopeField(k) :: Get(Get(row, SCOPE), k) == Get(plan, k))
  {
  }

  // ---------------------------------------------------------- the writer as input

  lemma {:induction false} WriterFlags(request: Value)
    ensures var row := WA.AttestedWriter(request);
            && Get(row, SCHEMA) == Text(WriterResultSchema) && Get(row, STATE) == Text(WriterAttestedState)
            && Get(row, WRITER_IDENTITY_VERIFIED) == Bool(true) && Get(row, WRITER_AUTHORITY_VERIFIED) == Bool(true)
            && Get(row, RECEIPT_BINDING_VERIFIED) == Bool(true) && Get(row, NONCE_REGISTERED) == Bool(true)
            && Get(row, CHECKPOINT_WRITE_PERFORMED) == Bool(false)
            && Get(row, COMMAND_GENERATED) == Bool(false) && Get(row, COMMAND_EXECUTED) == Bool(false)
  {
  }

  lemma {:induction false} WriterSubject(request: Value)
    ensures var row := WA.AttestedWriter(request);
            && Get(row, ELIGIBLE_FOR_COMMAND_PLANNING) == Bool(Get(request, EXECUTION_DECISION) == Text(Authorize))
            && (forall k: Key | CUSTOMER_ID <= k <= ACTION_FAMILY :: Get(row, k) == Get(request, k))
            && Get(row, EXECUTION_DECISION) == Get(request, EXECUTION_DECISION)
  {
  }

  lemma {:induction false} WriterRepeats(receipt: Value, t: Terms, fingerprint: Value)
    ensures var request := WA.Body(receipt, t, fingerprint);
            && (forall k: Key | CUSTOMER_ID <= k <= ACTION_FAMILY :: Get(request, k) == Get(receipt, k))
            && Get(request, EXECUTION_DECISION) == Get(receipt, EXECUTION_DECISION)
            && Get(request, EXECUTION_RECORD_DIGEST) == Get(receipt, EXECUTION_RECORD_DIGEST)
            && Get(request, AFTER_CHECKPOINT_DIGEST) == Get(receipt, AFTER_CHECKPOINT_DIGEST)
            && Get(request, RECEIPT_DIGEST) == Get(receipt, RECEIPT_DIGEST)
  {
  }

  lemma {:induction false} WriterRequestRest(receipt: Value, t: Terms, fingerprint: Value)
    ensures var request := WA.Body(receipt, t, fingerprint);
            && Get(request, KEY_ID) == t.keyId && Get(request, KEY_VERSION) == t.keyVersion
            && Get(request, EVENT_ID) == Get(receipt, EVENT_ID) && Get(request, WRITER_REF) == Get(receipt, WRITER_REF)
            && Get(request, WRITER_FINGERPRINT) == fingerprint
  {
  }

  // ------------------------------------------------- three artifacts of one request

  /** An authorised attestation of a clean request, as its fields read. */
  predicate CleanAttestation(row: Value, request: Value) {
    && Get(row, SCHEMA) == Text(AttestationSchema) && Get(row, STATE) == Text(PersistenceAttestedState)
    && Get(row, RECORD_PERSISTED) == Bool(true) && Get(row, PERSISTENCE_ATTESTED) == Bool(true)
    && Get(row, RECEIPT_CONSISTENCY_VERIFIED) == Bool(true) && Get(row, WRITER_IDENTITY_VERIFIED) == Bool(false)
    && Get(row, STORAGE_WRITE_PERFORMED) == Bool(false) && Get(row, ELIGIBLE_FOR_COMMAND_PLANNING) == Bool(true)
    && Get(row, COMMAND_GENERATED) == Bool(false) && Get(row, COMMAND_EXECUTED) == Bool(false) && NoAuthority(row)
    && Repeats(row, request) && RepeatsLineage(row, request)
    && (forall k: Key | IsScopeField(k) :: Get(Get(row, SCOPE), k) == Get(request, k))
  }

  /** A request that the owner authorised for a supported family. */
  predicate Authorized(request: Value) {
    && CleanRequest(request) && Get(request, DECISION) == Text(Authorize)
    && OperationKind(Get(request, ACTION_FAMILY)).Some?
  }

  /** The verified acknowledgement of the same record and receipt. */
  predicate CleanWriter(row: Value, request: Value, persisted: Value) {
    && Get(row, SCHEMA) == Text(WriterResultSchema) && Get(row, STATE) == Text(WriterAttestedState)
    && Get(row, WRITER_IDENTITY_VERIFIED) == Bool(true) && Get(row, WRITER_AUTHORITY_VERIFIED) == Bool(true)
    && Get(row, RECEIPT_BINDING_VERIFIED) == Bool(true) && Get(row, NONCE_REGISTERED) == Bool(true)
    && Get(row, CHECKPOINT_WRITE_PERFORMED) == Bool(false) && Get(row, ELIGIBLE_FOR_COMMAND_PLANNING) == Bool(true)
    && Get(row, COMMAND_GENERATED) == Bool(false) && Get(row, COMMAND_EXECUTED) == Bool(false) && NoAuthority(row)
    && (forall k: Key | CUSTOMER_ID <= k <= ACTION_FAMILY :: Get(row, k) == Get(request, k))
    && Get(row, EXECUTION_DECISION) == Text(Authorize)
    && Get(row, RECEIPT_DIGEST) == Get(persisted, RECEIPT_DIGEST)
    && Get(row, AFTER_CHECKPOINT_DIGEST) == Get(persisted, AFTER_CHECKPOINT_DIGEST)
    && Get(row, EXECUTION_RECORD_DIGEST) == Get(persisted, EXECUTION_RECORD_DIGEST)
    && Get(row, WRITER_REQUEST_DIGEST).Sha?
  }

  function SubjectScope(request: Value): ScopeTriple {
    ScopeTriple(Get(request, OWNER_ID), Get(request, TENANT_ID), Get(request, WORKSPACE_ID))
  }

  lemma {:induction false} FixedScope(row: Value, request: Value)
    requires FixedSubject(request) && forall k: Key | IsScopeField(k) :: Get(row, k) == Get(request, k)
    ensures ScopeOf(row) == StrictScope(row) == SubjectScope(request) && Complete(SubjectScope(request))
  {
    forall k: Key | IsScopeField(k)
      ensures Fixed(Get(request, k), 120) && IdentityOf(Get(row, k), 120) == TextOf(Get(row, k), 120) == Get(request, k)
    {
      assert Fixed(Get(request, k), 120);
      GuardKeepsFixedTexts(Get(row, k), 120);
    }
    assert Fixed(Get(request, OWNER_ID), 120) && Fixed(Get(request, TENANT_ID), 120);
    assert Fixed(Get(request, WORKSPACE_ID), 120);
  }

  lemma {:induction false} FixedIdentity(row: Value, request: Value, k: Key)
    requires FixedSubject(request) && IsIdentity(k) && Get(row, k) == Get(request, k)
    ensures IdentityOf(Get(row, k), IdentityLimit(k)) == Get(request, k) != EMPTY
    ensures IdentityText(row, k, 40) == IdentityText(row, k, 120) != EMPTY
    ensures k != PACKAGE ==> IdentityText(row, k, 40) == Get(request, k) && TextOf(Get(request, k), 180) == Get(request, k)
  {
    assert Fixed(Get(request, k), IdentityLimit(k));
    GuardKeepsFixedTexts(Get(row, k), IdentityLimit(k));
    FixedWithin(Get(row, k), IdentityLimit(k), 120);
    FixedWithin(Get(row, k), IdentityLimit(k), 180);
  }

  lemma {:induction false} PersistedIsOk(row: Value, request: Value)
    requires Authorized(request) && CleanAttestation(row, request)
    ensures PersistedOk(row, SubjectScope(request))
  {
    FixedScope(row, request);
    FixedScope(Get(row, SCOPE), request);
    forall k: Key | IsIdentity(k)
      ensures IdentityText(row, k, 40) != EMPTY
    {
      FixedIdentity(row, request, k);
    }
    FixedIdentity(row, request, ACTION_FAMILY);
  }

  lemma {:induction false} WriterIsOk(row: Value, request: Value, persisted: Value)
    requires Authorized(request) && CleanAttestation(persisted, request) && CleanWriter(row, request, persisted)
    ensures WriterOk(row, persisted)
  {
    forall k: Key | CUSTOMER_ID <= k <= ACTION_FAMILY
      ensures TextOf(Get(row, k), 180) == IdentityText(persisted, k, 40)
    {
      FixedIdentity(persisted, request, k);
    }
  }

  /** The preflight and the request that was built from it agree. */
  predicate SameSource(preflight: Value, request: Value) {
    forall k: Key | IsSubject(k) || IsPreflightDigest(k) :: Get(request, k) == Get(preflight, k)
  }

  lemma {:induction false} PreflightIdentities(row: Value, request: Value, persisted: Value)
    requires FixedSubject(request) && Repeats(persisted, request) && SameSource(row, request)
    ensures forall k: Key | IsIdentity(k) :: IdentityText(row, k, 120) == IdentityText(persisted, k, 40)
  {
    forall k: Key | IsIdentity(k)
      ensures IdentityText(row, k, 120) == IdentityText(persisted, k, 40)
    {
      assert IsSubject(k);
      FixedIdentity(persisted, request, k);
      assert Get(row, k) == Get(persisted, k);
    }
  }

  lemma {:induction false} PreflightDigests(row: Value, request: Value, persisted: Value)
    requires CleanRequest(request) && RepeatsLineage(persisted, request) && SameSource(row, request)
    ensures forall k: Key | IsPreflightDigest(k) :: Get(persisted, k).Sha? && Get(row, k) == Get(persisted, k)
  {
    forall k: Key | IsPreflightDigest(k)
      ensures Get(persisted, k).Sha? && Get(row, k) == Get(persisted, k)
    {
      assert Get(request, k).Sha?;
    }
  }

  lemma {:induction false} PreflightScopes(row: Value, request: Value)
    requires FixedSubject(request) && CleanPreflight(row) && SameSource(row, request)
    ensures ScopeOf(row) == ScopeOf(Get(row, SCOPE)) == SubjectScope(request)
    ensures StrictScope(row) == StrictScope(Get(row, SCOPE)) == SubjectScope(request)
  {
    forall k: Key | IsScopeField(k)
      ensures Get(row, k) == Get(request, k) && Get(Get(row, SCOPE), k) == Get(request, k)
    {
      assert IsSubject(k);
    }
    FixedScope(row, request);
    FixedScope(Get(row, SCOPE), request);
  }

  lemma {:induction false} PreflightIsOk(row: Value, request: Value, persisted: Value)
    requires Authorized(request) && CleanAttestation(persisted, request) && CleanPreflight(row)
    requires SameSource(row, request)
    ensures PreflightMatches(row, persisted, SubjectScope(request))
  {
    PreflightScopes(row, request);
    PreflightIdentities(row, request, persisted);
    PreflightDigests(row, request, persisted);
  }

  lemma {:induction false} GuardScopes(persisted: Value, request: Value)
    requires Authorized(request) && CleanAttestation(persisted, request)
    ensures StrictScope(persisted) == StrictScope(Get(persisted, SCOPE)) == SubjectScope(request)
    ensures Complete(SubjectScope(request))
  {
    forall k: Key | IsScopeField(k)
      ensures Get(persisted, k) == Get(request, k)
    {
      assert IsSubject(k);
    }
    FixedScope(persisted, request);
    FixedScope(Get(persisted, SCOPE), request);
  }

  lemma {:induction false} GuardIdentities(persisted: Value, preflight: Value, request: Value)
    requires FixedSubject(request) && Repeats(persisted, request) && SameSource(preflight, request)
    ensures forall k: Key | IsIdentity(k) ::
              && IdentityOf(Get(persisted, k), IdentityLimit(k)) != EMPTY
              && IdentityOf(Get(preflight, k), IdentityLimit(k)) == IdentityOf(Get(persisted, k), IdentityLimit(k))
  {
    forall k: Key | IsIdentity(k)
      ensures IdentityOf(Get(persisted, k), IdentityLimit(k)) != EMPTY
      ensures IdentityOf(Get(preflight, k), IdentityLimit(k)) == IdentityOf(Get(persisted, k), IdentityLimit(k))
    {
      assert IsSubject(k);
      FixedIdentity(persisted, request, k);
      assert Get(preflight, k) == Get(persisted, k);
    }
  }

  lemma {:induction false} GuardWriter(persisted: Value, writer: Value, request: Value)
    requires Repeats(persisted, request)
    requires forall k: Key | CUSTOMER_ID <= k <= ACTION_FAMILY :: Get(writer, k) == Get(request, k)
    ensures forall k: Key | CUSTOMER_ID <= k <= ACTION_FAMILY ::
              IdentityOf(Get(writer, k), 120) == IdentityOf(Get(persisted, k), 120)
  {
    forall k: Key | CUSTOMER_ID <= k <= ACTION_FAMILY
      ensures Get(writer, k) == Get(persisted, k)
    {
      assert IsSubject(k);
    }
  }

  lemma {:induction false} GuardFamily(persisted: Value, request: Value)
    requires Authorized(request) && Repeats(persisted, request)
    ensures OperationKind(IdentityOf(Get(persisted, ACTION_FAMILY), 120)).Some?
    ensures OperationKind(IdentityOf(Get(persisted, ACTION_FAMILY), 120))
         == OperationKind(IdentityText(persisted, ACTION_FAMILY, 40))
  {
    assert IsSubject(ACTION_FAMILY);
    FixedIdentity(persisted, request, ACTION_FAMILY);
  }

  lemma {:induction false} GuardIsOk(persisted: Value, writer: Value, preflight: Value, request: Value)
    requires Authorized(request) && CleanAttestation(persisted, request) && CleanWriter(writer, request, persisted)
    requires CleanPreflight(preflight) && SameSource(preflight, request)
    ensures GuardOk(persisted, writer, preflight) && StrictScope(Get(persisted, SCOPE)) == SubjectScope(request)
  {
    GuardScopes(persisted, request);
    PreflightScopes(preflight, request);
    GuardIdentities(persisted, preflight, request);
    GuardWriter(persisted, writer, request);
    GuardFamily(persisted, request);
  }

  lemma {:induction false} V1Holds(trusted: ScopeTriple, persisted: Value, writer: Value, preflight: Value)
    requires Complete(trusted) && PersistedOk(persisted, trusted) && WriterOk(writer, persisted)
    requires PreflightMatches(preflight, persisted, trusted)
    ensures BuildV1(trusted, persisted, writer, preflight).Some?
  {
  }

  lemma {:induction false} V2Holds(persisted: Value, writer: Value, preflight: Value)
    requires persisted.Dict? && writer.Dict? && preflight.Dict?
    requires GuardOk(persisted, writer, preflight)
    requires BuildV1(StrictScope(Get(persisted, SCOPE)), persisted, writer, preflight).Some?
    requires OperationKind(IdentityOf(Get(persisted, ACTION_FAMILY), 120))
          == OperationKind(IdentityText(persisted, ACTION_FAMILY, 40))
    ensures BuildV2(persisted, writer, preflight).Some? <==> SafeInput(List([persisted, writer, preflight]))
  {
  }

  /** Three artifacts of one authorised request make a command plan if and only if they
      pass the input guard together; nothing else can stop them. */
  lemma {:induction false} CommandIsReady(persisted: Value, writer: Value, preflight: Value, request: Value)
    requires Authorized(request) && CleanAttestation(persisted, request) && CleanWriter(writer, request, persisted)
    requires CleanPreflight(preflight) && SameSource(preflight, request)
    requires persisted.Dict? && writer.Dict? && preflight.Dict?
    ensures BuildV2(persisted, writer, preflight).Some? <==> SafeInput(List([persisted, writer, preflight]))
  {
    GuardIsOk(persisted, writer, preflight, request);
    GuardScopes(persisted, request);
    PersistedIsOk(persisted, request);
    WriterIsOk(writer, request, persisted);
    PreflightIsOk(preflight, request, persisted);
    V1Holds(SubjectScope(request), persisted, writer, preflight);
    GuardFamily(persisted, request);
    V2Holds(persisted, writer, preflight);
  }
}
