/** The owner's execution ceremony: the request built from a clean preflight, and the
    decision record that a verified request produces. */
module ExecutionCeremony {
  import opened Wrappers
  import opened Records
  import opened Nonces
  import opened SignedStep

  predicate IsPreflightFalse(k: Key) {
    COMMAND_GENERATED <= k <= OWNER_SIGNATURE_VERIFIED || IsAuthority(k)
  }

  /** `_preflight_blockers` finds nothing. */
  predicate PreflightOk(row: Value) {
    && Get(row, SCHEMA) == Text(PreflightSchema) && Get(row, STATE) == Text(ReadyForCeremony)
    && !Truthy(Get(row, BLOCKERS))
    && Get(row, CEREMONY_ELIGIBLE) == Bool(true) && Get(row, HUMAN_CONFIRMATION_REQUIRED) == Bool(true)
    && Get(row, CUSTOMER_VISIBLE) == Bool(false)
    && Complete(ScopeOf(Get(row, SCOPE))) && ScopeOf(row) == ScopeOf(Get(row, SCOPE))
    && (forall k: Key | IsIdentity(k) :: !Blank(Get(row, k), 120))
    && (forall k: Key | IsPreflightDigest(k) :: Get(row, k).Sha?)
    && (forall k: Key | IsPreflightFalse(k) :: Get(row, k) == Bool(false))
  }

  // ------------------------------------------------------------------ the request

  predicate InRequest(k: Key) {
    || k == SCHEMA || PURPOSE <= k <= OWNER_FINGERPRINT || OWNER_ID <= k <= REVIEW_TYPE || IsPreflightDigest(k)
    || CEREMONY_ID <= k <= DECISION || RECORD_PERSISTED <= k <= COMMAND_EXECUTED || IsAuthority(k)
  }

  function ChosenField(t: Terms, k: Key): Value {
    if k == CEREMONY_ID then t.ceremonyId else if k == NONCE then t.nonce else if k == KEY_ID then t.keyId
    else if k == KEY_VERSION then t.keyVersion else if k == ISSUED_AT then t.issuedAt
    else if k == EXPIRES_AT then t.expiresAt else t.decision
  }

  function RequestField(preflight: Value, t: Terms, fingerprint: Value, k: Key): Value {
    if RECORD_PERSISTED <= k then Bool(false)
    else if CEREMONY_ID <= k then ChosenField(t, k)
    else if ACTION_RECORD_DIGEST <= k then TextOf(Get(preflight, k), 180)
    else if CUSTOMER_ID <= k then TextOf(Get(preflight, k), if k == PACKAGE then 40 else 120)
    else if OWNER_ID <= k then TextOf(Get(Get(preflight, SCOPE), k), 120)
    else if k == OWNER_FINGERPRINT then fingerprint
    else if k == SCHEMA then Text(RequestSchema)
    else if k == PURPOSE then Text(ExecutionPurpose)
    else Text(OwnerMechanism)
  }

  function Body(preflight: Value, t: Terms, fingerprint: Value): Value {
    Dict(map k: Key | InRequest(k) :: RequestField(preflight, t, fingerprint, k))
  }

  predicate ShapeOk(request: Value) {
    request.Dict? && forall k: Key :: k in request.fields <==> InRequest(k)
  }

  predicate ConstantsOk(request: Value) {
    && Get(request, SCHEMA) == Text(RequestSchema) && Get(request, PURPOSE) == Text(ExecutionPurpose)
    && Get(request, SIGNATURE_MECHANISM) == Text(OwnerMechanism)
    && (forall k: Key | RECORD_PERSISTED <= k <= COMMAND_EXECUTED :: Get(request, k) == Bool(false))
    && NoAuthority(request)
  }

  /** The components of `_nonce_scope`: the request digest is one of them. */
  function NonceScope(request: Value): Value {
    List([Text(ExecutionScope), TextOf(Get(request, OWNER_ID), 120), TextOf(Get(request, TENANT_ID), 120),
          TextOf(Get(request, WORKSPACE_ID), 120), TextOf(Get(request, CUSTOMER_ID), 120),
          TextOf(Get(request, PILOT_ID), 120), TextOf(Get(request, REQUESTED_CHOICE), 120),
          TextOf(Get(request, ACTION_PARAMETERS_DIGEST), 180), TextOf(Get(request, EXECUTION_PREFLIGHT_DIGEST), 180),
          Sha(request), TextOf(Get(request, KEY_ID), 128), Get(request, KEY_VERSION)])
  }

  function Ceremony(): Protocol {
    Protocol(120_000_000, true, PreflightOk, ShapeOk, ConstantsOk, OWNER_FINGERPRINT, Body, NonceScope)
  }

  lemma {:induction false} BodyTerms(preflight: Value, t: Terms, fingerprint: Value)
    ensures ShapeOk(Body(preflight, t, fingerprint))
    ensures TermsIn(Ceremony(), Body(preflight, t, fingerprint)) == t
  {
  }

  lemma {:induction false} BodyConstants(preflight: Value, t: Terms, fingerprint: Value)
    ensures ConstantsOk(Body(preflight, t, fingerprint))
    ensures Get(Body(preflight, t, fingerprint), OWNER_FINGERPRINT) == fingerprint
  {
  }

  lemma {:induction false} CeremonyIsLawful()
    ensures Lawful(Ceremony())
  {
    var p := Ceremony();
    forall source: Value, t: Terms, fingerprint: Value
      ensures Faithful(p, p.body(source, t, fingerprint), t, fingerprint)
    {
      BodyTerms(source, t, fingerprint);
      BodyConstants(source, t, fingerprint);
    }
  }

  // ------------------------------------------------------- the verified decision

  predicate InRecord(k: Key) {
    || k == SCHEMA || k == STATE || k == EXECUTION_DECISION || OWNER_ID <= k <= REVIEW_TYPE || IsLineageDigest(k)
    || RECORD_PERSISTED <= k <= COMMAND_EXECUTED || OWNER_SIGNATURE_VERIFIED <= k <= DENIAL_INTENT || IsAuthority(k)
  }

  function DecisionState(decision: Value): Value {
    Text(if decision == Text(Authorize) then AuthorizePending else DenyPending)
  }

  /** One field of the execution record of a verified request. */
  function RecordField(request: Value, k: Key): Value {
    if k == AUTHORIZATION_INTENT then Bool(Get(request, DECISION) == Text(Authorize))
    else if k == DENIAL_INTENT then Bool(Get(request, DECISION) != Text(Authorize))
    else if k == OWNER_SIGNATURE_VERIFIED || k == DECISION_VERIFIED then Bool(true)
    else if RECORD_PERSISTED <= k then Bool(false)
    else if k == EXECUTION_REQUEST_DIGEST then Sha(request)
    else if OWNER_ID <= k then Get(request, k)
    else if k == EXECUTION_DECISION then Get(request, DECISION)
    else if k == STATE then DecisionState(Get(request, DECISION))
    else Text(ResultSchema)
  }

  function Record(request: Value): Value {
    Dict(map k: Key | InRecord(k) :: RecordField(request, k))
  }

  predicate InResult(k: Key) {
    || SCHEMA <= k <= BLOCKERS || EXECUTION_DECISION <= k <= EXECUTION_RECORD
    || REQUESTED_CHOICE <= k <= ACTION_FAMILY || k == EXECUTION_RECORD_DIGEST
    || RECORD_PERSISTED <= k <= COMMAND_EXECUTED || OWNER_SIGNATURE_VERIFIED <= k <= ELIGIBLE_AFTER_PERSISTENCE
    || OWNER_IDENTITY_VERIFIED <= k <= GENERIC_CHAT_ACCEPTED || IsAuthority(k)
  }

  /** One field of what the verifier returns for a verified request. */
  function ResultField(request: Value, k: Key): Value {
    if k == AUTHORIZATION_INTENT || k == ELIGIBLE_AFTER_PERSISTENCE then Bool(Get(request, DECISION) == Text(Authorize))
    else if k == DENIAL_INTENT then Bool(Get(request, DECISION) != Text(Authorize))
    else if k == OWNER_SIGNATURE_VERIFIED || k == DECISION_VERIFIED || k == OWNER_IDENTITY_VERIFIED
         || k == REQUIRES_RECORD_PERSISTENCE then Bool(true)
    else if RECORD_PERSISTED <= k then Bool(false)
    else if k == EXECUTION_RECORD_DIGEST then Sha(Record(request))
    else if REQUESTED_CHOICE <= k then Get(request, k)
    else if k == EXECUTION_RECORD then Record(request)
    else if k == EXECUTION_DECISION then Get(request, DECISION)
    else if k == BLOCKERS then List([])
    else if k == STATE then DecisionState(Get(request, DECISION))
    else Text(ResultSchema)
  }

  function VerifiedDecision(request: Value): Value {
    Dict(map k: Key | InResult(k) :: ResultField(request, k))
  }

  /** `verify_owner_business_action_execution_decision`. */
  method VerifyDecision(
    request: Value, signature: Signature, preflight: Value, roots: TrustRoots, registry: NonceRegistry, now: Value)
    returns (result: Result<Value, Refusal>)
    modifies registry
    ensures var checked := Check(Ceremony(), request, signature, preflight, roots, now);
            var claim := ClaimOf(Ceremony(), request, now);
            && registry.claims == (if checked.Success? then ClaimsAfter(old(registry.claims), claim)
                                   else old(registry.claims))
            && (result.Success? <==> checked.Success? && OutcomeOf(old(registry.claims), claim) == Granted)
            && (result.Success? ==> result.value == VerifiedDecision(request))
  {
    var verified := Verify(Ceremony(), request, signature, preflight, roots, registry, now);
    result := if verified.Failure? then Failure(verified.error) else Success(VerifiedDecision(request));
  }
}
