/** The checkpoint writer's attestation: a trusted writer key signs one persistence
    receipt, and the verified result repeats what the receipt said. */
module WriterAttestation {
  import opened Wrappers
  import opened Records
  import opened Nonces
  import opened SignedStep

  // ------------------------------------------------------------------ the receipt

  predicate IsReceiptText(k: Key) {
    CUSTOMER_ID <= k <= ACTION_FAMILY || k == EXECUTION_DECISION || k == EVENT_ID || k == WRITER_REF
  }

  predicate IsReceiptDigest(k: Key) {
    || k == EXECUTION_RECORD_DIGEST || k == PATCH_DIGEST || k == BEFORE_CHECKPOINT_DIGEST
    || k == AFTER_CHECKPOINT_DIGEST || k == RECEIPT_DIGEST
  }

  predicate IsReceiptFalse(k: Key) {
    || k == COMMAND_GENERATED || k == COMMAND_EXECUTED || k == WRITER_IDENTITY_VERIFIED
    || k == BUSINESS_ACTION_AUTHORIZED || k == EXTERNAL_ACTION_EXECUTED
  }

  /** The fields of a receipt that do not depend on what was written. */
  predicate HasReceiptConstants(row: Value) {
    && Get(row, SCHEMA) == Text(ReceiptSchema) && Get(row, STATUS) == Text(Confirmed)
    && Get(row, STORAGE_TARGET) == Text(CheckpointMaster) && Get(row, WRITE_MODE) == Text(ExplicitAppend)
    && Get(row, NAMESPACE) == Text(NamespaceName)
  }

  /** The receipt without its own digest. */
  function ReceiptBody(row: Value): Value {
    if row.Dict? then Dict(row.fields - {RECEIPT_DIGEST}) else Dict(map[])
  }

  /** `_receipt_blockers` finds nothing. */
  predicate ReceiptOk(row: Value) {
    && HasReceiptConstants(row)
    && (forall k: Key | IsReceiptText(k) :: !Blank(Get(row, k), 240))
    && IsDecision(Get(row, EXECUTION_DECISION))
    && (forall k: Key | IsReceiptDigest(k) :: Get(row, k).Sha?)
    && (forall k: Key | IsReceiptFalse(k) :: Get(row, k) == Bool(false))
    && Get(row, RECEIPT_DIGEST) == Sha(ReceiptBody(row))
  }

  // ------------------------------------------------------------------ the request

  /** The fields that the request repeats from the receipt. */
  predicate IsRepeated(k: Key) {
    || k == EXECUTION_DECISION || CUSTOMER_ID <= k <= ACTION_FAMILY || k == EXECUTION_RECORD_DIGEST
    || STORAGE_TARGET <= k <= RECEIPT_DIGEST
  }

  predicate InRequest(k: Key) {
    || k == SCHEMA || k == PURPOSE || k == SIGNATURE_MECHANISM || k == WRITER_FINGERPRINT || IsRepeated(k)
    || CEREMONY_ID <= k <= EXPIRES_AT || IsReceiptFalse(k)
  }

  function RequestField(receipt: Value, t: Terms, fingerprint: Value, k: Key): Value {
    if IsReceiptFalse(k) then Bool(false)
    else if STORAGE_TARGET <= k then Get(receipt, k)
    else if k == CEREMONY_ID then t.ceremonyId else if k == NONCE then t.nonce else if k == KEY_ID then t.keyId
    else if k == KEY_VERSION then t.keyVersion else if k == ISSUED_AT then t.issuedAt
    else if k == EXPIRES_AT then t.expiresAt
    else if EXECUTION_DECISION <= k then Get(receipt, k)
    else if k == WRITER_FINGERPRINT then fingerprint
    else if k == SCHEMA then Text(WriterRequestSchema)
    else if k == PURPOSE then Text(WriterPurpose)
    else Text(WriterMechanism)
  }

  function Body(receipt: Value, t: Terms, fingerprint: Value): Value {
    Dict(map k: Key | InRequest(k) :: RequestField(receipt, t, fingerprint, k))
  }

  predicate ShapeOk(request: Value) {
    request.Dict? && forall k: Key :: k in request.fields <==> InRequest(k)
  }

  predicate ConstantsOk(request: Value) {
    && Get(request, SCHEMA) == Text(WriterRequestSchema) && Get(request, PURPOSE) == Text(WriterPurpose)
    && Get(request, SIGNATURE_MECHANISM) == Text(WriterMechanism)
    && forall k: Key | IsReceiptFalse(k) :: Get(request, k) == Bool(false)
  }

  function NonceScope(request: Value): Value {
    List([Text(WriterScope), TextOf(Get(request, CUSTOMER_ID), 120), TextOf(Get(request, PILOT_ID), 120),
          TextOf(Get(request, REQUESTED_CHOICE), 120), TextOf(Get(request, EXECUTION_DECISION), 100),
          TextOf(Get(request, RECEIPT_DIGEST), 180), Sha(request), TextOf(Get(request, KEY_ID), 128),
          Get(request, KEY_VERSION)])
  }

  function Attestation(): Protocol {
    Protocol(180_000_000, false, ReceiptOk, ShapeOk, ConstantsOk, WRITER_FINGERPRINT, Body, NonceScope)
  }

  lemma {:induction false} BodyTerms(receipt: Value, t: Terms, fingerprint: Value)
    requires t.decision == Null
    ensures ShapeOk(Body(receipt, t, fingerprint))
    ensures TermsIn(Attestation(), Body(receipt, t, fingerprint)) == t
  {
  }

  lemma {:induction false} BodyConstants(receipt: Value, t: Terms, fingerprint: Value)
    ensures ConstantsOk(Body(receipt, t, fingerprint))
    ensures Get(Body(receipt, t, fingerprint), WRITER_FINGERPRINT) == fingerprint
  {
  }

  lemma {:induction false} AttestationIsLawful()
    ensures Lawful(Attestation())
  {
    var p := Attestation();
    forall source: Value, t: Terms, fingerprint: Value | t.decision == Null
      ensures Faithful(p, p.body(source, t, fingerprint), t, fingerprint)
    {
      BodyTerms(source, t, fingerprint);
      BodyConstants(source, t, fingerprint);
    }
  }

  // ---------------------------------------------------------- the verified result

  predicate InResult(k: Key) {
    || SCHEMA <= k <= BLOCKERS || k == WRITER_FINGERPRINT || k == EXECUTION_DECISION
    || CUSTOMER_ID <= k <= ACTION_FAMILY || k == EXECUTION_RECORD_DIGEST
    || k == COMMAND_GENERATED || k == COMMAND_EXECUTED || EVENT_ID <= k <= WRITER_IDENTITY_VERIFIED
    || k == ELIGIBLE_FOR_COMMAND_PLANNING || WRITER_KEY_ID <= k <= CHECKPOINT_WRITE_PERFORMED || IsAuthority(k)
  }

  function ResultField(request: Value, k: Key): Value {
    if CHECKPOINT_WRITE_PERFORMED <= k then Bool(false)
    else if WRITER_AUTHORITY_VERIFIED <= k then Bool(true)
    else if k == WRITER_REQUEST_DIGEST then Sha(request)
    else if k == WRITER_KEY_VERSION then Get(request, KEY_VERSION)
    else if k == WRITER_KEY_ID then Get(request, KEY_ID)
    else if k == ELIGIBLE_FOR_COMMAND_PLANNING then Bool(Get(request, EXECUTION_DECISION) == Text(Authorize))
    else if k == WRITER_IDENTITY_VERIFIED then Bool(true)
    else if EVENT_ID <= k then Get(request, k)
    else if COMMAND_GENERATED <= k then Bool(false)
    else if WRITER_FINGERPRINT <= k then Get(request, k)
    else if k == BLOCKERS then List([])
    else if k == STATE then Text(WriterAttestedState)
    else Text(WriterResultSchema)
  }

  function AttestedWriter(request: Value): Value {
    Dict(map k: Key | InResult(k) :: ResultField(request, k))
  }

  /** `verify_owner_execution_writer_attestation`. */
  method VerifyWriter(
    request: Value, signature: Signature, receipt: Value, roots: TrustRoots, registry: NonceRegistry, now: Value)
    returns (result: Result<Value, Refusal>)
    modifies registry
    ensures var checked := Check(Attestation(), request, signature, receipt, roots, now);
            var claim := ClaimOf(Attestation(), request, now);
            && registry.claims == (if checked.Success? then ClaimsAfter(old(registry.claims), claim)
                                   else old(registry.claims))
            && (result.Success? <==> checked.Success? && OutcomeOf(old(registry.claims), claim) == Granted)
            && (result.Success? ==> result.value == AttestedWriter(request))
  {
    var verified := Verify(Attestation(), request, signature, receipt, roots, registry, now);
    result := if verified.Failure? then Failure(verified.error) else Success(AttestedWriter(request));
  }
}
