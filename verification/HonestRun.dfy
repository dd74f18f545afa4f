/** Honest runs never get stuck: each stage's positive output passes every check of the
    next, from a clean preflight to the command plan. */
module HonestRun {
  import opened Wrappers
  import opened Records
  import opened Nonces
  import opened SignedStep
  import opened Checkpoints
  import opened PersistencePlan
  import opened PersistenceAttestation
  import opened Lineage
  import opened HonestPlan
  import opened HonestAppend
  import opened HonestProof
  import opened HonestCommand
  import opened HonestForward
  import opened InputGuard
  import CP = CommandPlan
  import EC = ExecutionCeremony
  import WA = WriterAttestation

  // ----------------------------------------------------------------- signed steps

  /** Terms that the ceremony accepts at both moments, with one available key and a strict
      clock. */
  predicate Presentable(p: Protocol, t: Terms, roots: TrustRoots, issued: Value, now: Value, entry: RootEntry) {
    && IdentityOk(p, t) && WindowOk(p, t, issued) && WindowOk(p, t, now)
    && Available(roots, t.keyId, t.keyVersion, issued) == Some(entry)
    && Available(roots, t.keyId, t.keyVersion, now) == Some(entry)
    && StrictTime(now) && StrictTime(t.expiresAt)
  }

  /** The nonce is not in use. */
  ghost predicate Unused(claims: Claims, nonce: Value) {
    forall entry | entry in claims :: entry.1 != nonce
  }

  /** A request built from a usable source is accepted and its nonce is granted. */
  lemma {:induction false} StepSucceeds(
    p: Protocol, source: Value, t: Terms, roots: TrustRoots, issued: Value, now: Value, entry: RootEntry, claims: Claims)
    returns (request: Value)
    requires Lawful(p) && (p.decides || t.decision == Null) && p.sourceOk(source)
    requires Presentable(p, t, roots, issued, now, entry) && Unused(claims, t.nonce)
    requires UsableScope(p.scope(p.body(source, t, Fingerprint(entry))))
    ensures request == p.body(source, t, Fingerprint(entry)) && Build(p, source, roots, issued, t) == Some(request)
    ensures Check(p, request, Signed(entry.publicKey, request), source, roots, now) == Success(entry)
    ensures OutcomeOf(claims, ClaimOf(p, request, now)) == Granted
  {
    request := p.body(source, t, Fingerprint(entry));
    IssuedIsAccepted(p, source, roots, issued, now, t, entry);
    assert TermsIn(p, request) == t;
    assert Get(request, NONCE) == t.nonce && Get(request, EXPIRES_AT) == t.expiresAt;
  }

  // ------------------------------------------------------- plan, append, attestation

  /** A plan of a clean request on one state of the checkpoint, as its fields read. */
  predicate CleanPlan(plan: Value, request: Value, current: Current) {
    var candidate, record := Get(plan, PATCH_CANDIDATE), PlannedRecord(plan);
    && Repeats(plan, request) && FixedSubject(plan)
    && record.Dict? && RepeatsLineage(record, request) && Plain(record.fields)
    && Get(candidate, PATCH) == Dict(map[EXECUTION_NAMESPACE := record])
    && Get(candidate, PATCH_DIGEST).Sha? && Get(candidate, RECOMMENDED_EVENT_ID).DerivedId?
    && Get(candidate, EXPECTED_REVISION) == Int(current.revision)
    && Get(candidate, EXPECTED_STATE_DIGEST) == current.stateDigest
  }

  lemma {:induction false} PlannedFields(request: Value, current: Current)
    requires CleanRequest(request)
    ensures CleanPlan(PlanFor(EC.VerifiedDecision(request), current), request, current)
  {
    var row := EC.VerifiedDecision(request);
    CleanPlanFields(request, current);
    PlanFields(row, current);
    CandidateFields(row, current);
    PersistedIsPlain(request);
    PersistedFields(row);
    DecisionFields(request);
    RecordFields(request);
  }

  lemma {:induction false} PlanIsClean(request: Value, prior: Master)
    requires CleanRequest(request) && Reconstruct(prior).Some?
    ensures var plan := PlanFor(EC.VerifiedDecision(request), Reconstruct(prior).value);
            && BuildPlan(EC.VerifiedDecision(request), prior) == Some(plan)
            && CleanPlan(plan, request, Reconstruct(prior).value) && PlanOk(plan)
  {
    HonestPlanIsReady(request, prior);
    PlannedFields(request, Reconstruct(prior).value);
    CleanPlanIsOk(request, Reconstruct(prior).value);
  }

  lemma {:induction false} ExpectedIsAppend(plan: Value, request: Value, prior: Master, createdAt: Value, clock: Value)
    requires Reconstruct(prior).Some? && CleanPlan(plan, request, Reconstruct(prior).value)
    ensures Expected(plan, prior, createdAt, clock)
         == Append(prior, Get(Get(plan, PATCH_CANDIDATE), RECOMMENDED_EVENT_ID),
                   Dict(map[EXECUTION_NAMESPACE := Dict(PlannedRecord(plan).fields)]), prior.revision, createdAt, clock,
                   EvidenceOf(plan))
    ensures Get(Get(plan, PATCH_CANDIDATE), EXPECTED_STATE_DIGEST) == prior.stateDigest
  {
  }

  lemma {:induction false} CandidateIsPlain(plan: Value, request: Value, current: Current)
    requires CleanPlan(plan, request, current)
    ensures PlannedRecord(plan).Dict? && Plain(PlannedRecord(plan).fields)
    ensures IsEventId(Get(Get(plan, PATCH_CANDIDATE), RECOMMENDED_EVENT_ID))
  {
  }

  lemma {:induction false} SnapshotHolds(observed: Master, snapshot: map<Key, Value>, fields: map<Key, Value>)
    requires Reconstruct(observed).Some?
    requires Reconstruct(observed).value.snapshot == snapshot[EXECUTION_NAMESPACE := Dict(fields)]
    ensures Get(Dict(Reconstruct(observed).value.snapshot), EXECUTION_NAMESPACE) == Dict(fields)
  {
  }

  lemma {:induction false} PlannedIsAppended(
    plan: Value, request: Value, prior: Master, createdAt: Value, clock: Value)
    returns (observed: Master)
    requires Reconstruct(prior).Some? && |prior.journal| < MAX_EVENTS && createdAt.Stamp?
    requires CleanPlan(plan, request, Reconstruct(prior).value)
    requires !Known(prior.journal, Get(Get(plan, PATCH_CANDIDATE), RECOMMENDED_EVENT_ID))
    requires RoomFor(Reconstruct(prior).value.snapshot, PlannedRecord(plan).fields)
    ensures Stored(plan, prior, observed, createdAt, clock) && Reconstruct(observed).Some?
    ensures Get(Dict(Reconstruct(observed).value.snapshot), EXECUTION_NAMESPACE) == PlannedRecord(plan)
    ensures observed.stateDigest.Sha?
  {
    var id, fields := Get(Get(plan, PATCH_CANDIDATE), RECOMMENDED_EVENT_ID), PlannedRecord(plan).fields;
    CandidateIsPlain(plan, request, Reconstruct(prior).value);
    ExpectedIsAppend(plan, request, prior, createdAt, clock);
    observed := PlainIsAppended(plan, prior, id, fields, createdAt, clock);
  }

  lemma {:induction false} PlainIsAppended(
    plan: Value, prior: Master, id: Value, fields: map<Key, Value>, createdAt: Value, clock: Value)
    returns (observed: Master)
    requires Reconstruct(prior).Some? && |prior.journal| < MAX_EVENTS
    requires Plain(fields) && IsEventId(id) && !Known(prior.journal, id)
    requires RoomFor(Reconstruct(prior).value.snapshot, fields)
    requires Expected(plan, prior, createdAt, clock)
          == Append(prior, id, Dict(map[EXECUTION_NAMESPACE := Dict(fields)]), prior.revision, createdAt, clock,
                    EvidenceOf(plan))
    ensures Expected(plan, prior, createdAt, clock) == Some(observed) && Reconstruct(observed).Some?
    ensures Get(Dict(Reconstruct(observed).value.snapshot), EXECUTION_NAMESPACE) == Dict(fields)
    ensures observed.stateDigest.Sha?
  {
    observed := RecordCanBeAppended(prior, id, fields, createdAt, clock, EvidenceOf(plan));
    SnapshotHolds(observed, Reconstruct(prior).value.snapshot, fields);
  }

  lemma {:induction false} AttestHolds(
    plan: Value, prior: Master, observed: Master, receipt: Value, now: Value, clock: Value)
    requires PlanOk(plan) && MastersOk(plan, prior, observed, clock)
    requires ReceiptMatches(plan, prior, observed, receipt) && ReceiptOk(receipt, now)
    ensures Attest(plan, prior, observed, receipt, now, clock) == Some(Attested(plan, prior, observed, receipt))
  {
  }

  lemma {:induction false} StoredIsOk(
    plan: Value, request: Value, prior: Master, observed: Master, createdAt: Value, clock: Value, clock': Value)
    requires Reconstruct(prior).Some? && CleanPlan(plan, request, Reconstruct(prior).value) && PlanOk(plan)
    requires Stored(plan, prior, observed, createdAt, clock) && Reconstruct(observed).Some?
    requires Get(Dict(Reconstruct(observed).value.snapshot), EXECUTION_NAMESPACE) == PlannedRecord(plan)
    ensures MastersOk(plan, prior, observed, clock')
    ensures Expected(plan, prior, createdAt, clock) == Some(observed)
  {
    ExpectedIsAppend(plan, request, prior, createdAt, clock);
    StoredMastersAreOk(plan, prior, observed, createdAt, clock, clock');
  }

  /** A clean plan can be appended by an honest store and then attested. */
  lemma {:induction false} PlanIsAttested(
    plan: Value, request: Value, prior: Master, createdAt: Value, clock: Value, persistedAt: Value, writerRef: Value,
    now: Value, clock': Value)
    returns (observed: Master, receipt: Value)
    requires CleanRequest(request) && Reconstruct(prior).Some? && |prior.journal| < MAX_EVENTS
    requires CleanPlan(plan, request, Reconstruct(prior).value) && PlanOk(plan)
    requires !Known(prior.journal, Get(Get(plan, PATCH_CANDIDATE), RECOMMENDED_EVENT_ID))
    requires RoomFor(Reconstruct(prior).value.snapshot, PlannedRecord(plan).fields)
    requires createdAt.Stamp? && persistedAt.Stamp? && now.Stamp? && 0 <= now.us - persistedAt.us <= MAX_RECEIPT_AGE
    requires Fixed(writerRef, 240)
    ensures Expected(plan, prior, createdAt, clock) == Some(observed) && observed.stateDigest.Sha?
    ensures receipt == Receipt(plan, prior, observed, persistedAt, writerRef)
    ensures Attest(plan, prior, observed, receipt, now, clock') == Some(Attested(plan, prior, observed, receipt))
    ensures ReceiptRepeats(receipt, request) && ReceiptBinds(receipt, Get(plan, PATCH_CANDIDATE), prior, observed)
    ensures Get(receipt, WRITER_REF) == writerRef
  {
    observed := PlannedIsAppended(plan, request, prior, createdAt, clock);
    receipt := Receipt(plan, prior, observed, persistedAt, writerRef);
    StoredIsOk(plan, request, prior, observed, createdAt, clock, clock');
    ReceiptOfPlan(request, plan, prior, observed, persistedAt, writerRef);
    ReceiptOfMasters(plan, prior, observed, persistedAt, writerRef);
    ReceiptIsAccepted(request, plan, prior, observed, receipt, now);
    AttestHolds(plan, prior, observed, receipt, now, clock');
  }

  lemma {:induction false} ReceiptIsAccepted(
    request: Value, plan: Value, prior: Master, observed: Master, receipt: Value, now: Value)
    requires Repeats(plan, request) && ReceiptRepeats(receipt, request)
    requires ReceiptBinds(receipt, Get(plan, PATCH_CANDIDATE), prior, observed)
    requires Get(receipt, PERSISTED_AT).Stamp? && now.Stamp? && Fixed(Get(receipt, WRITER_REF), 240)
    requires 0 <= now.us - Get(receipt, PERSISTED_AT).us <= MAX_RECEIPT_AGE
    ensures ReceiptMatches(plan, prior, observed, receipt) && ReceiptOk(receipt, now)
  {
    forall k: Key | CUSTOMER_ID <= k <= ACTION_FAMILY
      ensures Get(receipt, k) == Get(plan, k)
    {
      assert IsSubject(k);
    }
  }

  // --------------------------------------------------------- the acknowledgement

  /** The receipt of an attested record can be acknowledged by a writer. */
  lemma {:induction false} ReceiptCanBeSigned(
    receipt: Value, request: Value, candidate: Value, prior: Master, observed: Master)
    requires CleanRequest(request) && ReceiptRepeats(receipt, request)
    requires ReceiptBinds(receipt, candidate, prior, observed)
    requires Get(candidate, RECOMMENDED_EVENT_ID).DerivedId? && Get(candidate, PATCH_DIGEST).Sha?
    requires Fixed(Get(receipt, WRITER_REF), 240)
    ensures WA.ReceiptOk(receipt)
  {
    forall k: Key | WA.IsReceiptText(k)
      ensures !Blank(Get(receipt, k), 240)
    {
      if CUSTOMER_ID <= k <= ACTION_FAMILY {
        assert IsIdentity(k) && Fixed(Get(request, k), CP.IdentityLimit(k));
        FixedWithin(Get(request, k), CP.IdentityLimit(k), 240);
      }
    }
    forall k: Key | WA.IsReceiptDigest(k) ensures Get(receipt, k).Sha? {}
  }

  // ------------------------------------------------------------- the command plan

  lemma {:induction false} AttestationIsClean(
    request: Value, plan: Value, prior: Master, observed: Master, receipt: Value)
    requires Authorized(request) && Repeats(plan, request) && RepeatsLineage(PlannedRecord(plan), request)
    ensures CleanAttestation(Attested(plan, prior, observed, receipt), request)
  {
    AttestationDescends(request, plan, prior, observed, receipt);
    AttestedFlags(plan, prior, observed, receipt);
    AttestedEligible(plan, prior, observed, receipt);
    forall k: Key | IsScopeField(k)
      ensures Get(plan, k) == Get(request, k)
    {
      assert IsSubject(k);
    }
  }

  lemma {:induction false} WriterIsClean(
    request: Value, plan: Value, prior: Master, observed: Master, receipt: Value, t: Terms, fingerprint: Value)
    requires Authorized(request) && Repeats(plan, request) && ReceiptRepeats(receipt, request)
    requires ReceiptBinds(receipt, Get(plan, PATCH_CANDIDATE), prior, observed)
    ensures CleanWriter(WA.AttestedWriter(WA.Body(receipt, t, fingerprint)), request,
                        Attested(plan, prior, observed, receipt))
  {
    var writerRequest := WA.Body(receipt, t, fingerprint);
    WriterFlags(writerRequest);
    WriterSubject(writerRequest);
    WriterFields(writerRequest);
    WriterRepeats(receipt, t, fingerprint);
    AttestedSubject(plan, prior, observed, receipt);
    AttestedBinding(plan, prior, observed, receipt);
  }

  lemma {:induction false} WriterRequestIsFormed(
    request: Value, candidate: Value, prior: Master, observed: Master, receipt: Value, t: Terms, fingerprint: Value)
    requires CleanRequest(request) && ReceiptRepeats(receipt, request) && fingerprint.Sha?
    requires ReceiptBinds(receipt, candidate, prior, observed) && Get(candidate, RECOMMENDED_EVENT_ID).DerivedId?
    requires Fixed(Get(receipt, WRITER_REF), 240) && t.keyId.Str? && t.keyVersion.Int?
    ensures FormedRequest(WA.Body(receipt, t, fingerprint))
  {
    WriterRepeats(receipt, t, fingerprint);
    WriterRequestRest(receipt, t, fingerprint);
    FixedIsText(Get(receipt, WRITER_REF), 240);
    forall k: Key | CUSTOMER_ID <= k <= ACTION_FAMILY
      ensures IsTextValue(Get(request, k))
    {
      FixedSubjectIsText(request);
      assert IsSubject(k);
    }
  }

  lemma {:induction false} LineageIsDigests(record: Value, request: Value)
    requires CleanRequest(request) && RepeatsLineage(record, request)
    ensures forall f: Key | IsLineageDigest(f) :: Get(record, f).Sha?
  {
    forall f: Key | IsLineageDigest(f)
      ensures Get(record, f).Sha?
    {
      if IsPreflightDigest(f) { assert Get(request, f).Sha?; }
    }
  }

  /** What the input guard of the command plan reads in an honest run, beyond the
      preflight: the writer's reference, key and key version, and the new revision. */
  predicate Harmlessly(writerRef: Value, keyId: Value, keyVersion: Value, revision: int) {
    Harmless(writerRef) && Harmless(keyId) && Harmless(keyVersion) && Harmless(Int(revision))
  }

  lemma {:induction false} AttestationIsFormed(plan: Value, request: Value, current: Current, observed: Master, receipt: Value)
    requires Authorized(request) && CleanPlan(plan, request, current) && observed.stateDigest.Sha?
    requires Get(receipt, RECEIPT_DIGEST).Sha?
    ensures FormedAttestation(plan, observed, receipt)
  {
    LineageIsDigests(PlannedRecord(plan), request);
  }

  /** The subject of every artifact of the run is that of the preflight. */
  lemma {:induction false} SameHarmlessSubject(preflight: Value, request: Value, plan: Value, writerRequest: Value)
    requires SameSource(preflight, request) && Repeats(plan, request)
    requires forall k: Key | CUSTOMER_ID <= k <= ACTION_FAMILY :: Get(writerRequest, k) == Get(request, k)
    ensures HarmlessSubject(preflight) <==> HarmlessSubject(plan)
    ensures HarmlessSubject(preflight) ==> HarmlessReceiptSubject(writerRequest)
  {
    forall k: Key | IsSubject(k) ensures Get(preflight, k) == Get(plan, k) {}
    forall k: Key | CUSTOMER_ID <= k <= ACTION_FAMILY ensures Get(writerRequest, k) == Get(preflight, k) { assert IsSubject(k); }
  }

  lemma {:induction false} ForwardedIsHarmless(preflight: Value)
    requires Forwardable(preflight)
    ensures HarmlessSubject(preflight)
  {
    HarmlessIsSubject(preflight);
  }

  lemma {:induction false} GuardDecides(
    plan: Value, request: Value, current: Current, prior: Master, observed: Master, receipt: Value, writerRequest: Value,
    preflight: Value)
    requires Authorized(request) && CleanPlan(plan, request, current) && observed.stateDigest.Sha?
    requires Get(receipt, RECEIPT_DIGEST).Sha? && FormedRequest(writerRequest) && SameSource(preflight, request)
    requires forall k: Key | CUSTOMER_ID <= k <= ACTION_FAMILY :: Get(writerRequest, k) == Get(request, k)
    ensures SafeInput(List([Attested(plan, prior, observed, receipt), WA.AttestedWriter(writerRequest), preflight])) <==>
            Forwardable(preflight) && HarmlessWriter(writerRequest) && Harmless(Int(observed.revision))
  {
    AttestationIsFormed(plan, request, current, observed, receipt);
    AttestedDecides(plan, prior, observed, receipt);
    WriterDecides(writerRequest);
    SameHarmlessSubject(preflight, request, plan, writerRequest);
    if Forwardable(preflight) { ForwardedIsHarmless(preflight); }
    ForwardIff(Attested(plan, prior, observed, receipt), WA.AttestedWriter(writerRequest), preflight);
  }

  lemma {:induction false} DictOfSchema(row: Value)
    requires CleanPreflight(row)
    ensures row.Dict?
  {
    assert Get(row, SCHEMA) != Null;
  }

  /** From an attested record and a signed acknowledgement the command plan is ready if and
      only if the input guard lets their free texts and numbers pass. */
  lemma {:induction false} CommandFollows(
    plan: Value, request: Value, current: Current, prior: Master, observed: Master, receipt: Value, t: Terms,
    entry: RootEntry, preflight: Value)
    requires Authorized(request) && CleanPlan(plan, request, current) && observed.stateDigest.Sha?
    requires ReceiptRepeats(receipt, request) && ReceiptBinds(receipt, Get(plan, PATCH_CANDIDATE), prior, observed)
    requires Fixed(Get(receipt, WRITER_REF), 240) && t.keyId.Str? && t.keyVersion.Int?
    requires CleanPreflight(preflight) && SameSource(preflight, request)
    ensures CP.BuildV2(Attested(plan, prior, observed, receipt),
                       WA.AttestedWriter(WA.Body(receipt, t, Fingerprint(entry))), preflight).Some? <==>
            Forwardable(preflight) && Harmlessly(Get(receipt, WRITER_REF), t.keyId, t.keyVersion, observed.revision)
  {
    var writerRequest := WA.Body(receipt, t, Fingerprint(entry));
    LineageIsDigests(PlannedRecord(plan), request);
    AttestationIsClean(request, plan, prior, observed, receipt);
    WriterIsClean(request, plan, prior, observed, receipt, t, Fingerprint(entry));
    WriterRequestIsFormed(request, Get(plan, PATCH_CANDIDATE), prior, observed, receipt, t, Fingerprint(entry));
    WriterRepeats(receipt, t, Fingerprint(entry));
    WriterRequestRest(receipt, t, Fingerprint(entry));
    DictOfSchema(preflight);
    CommandIsReady(Attested(plan, prior, observed, receipt), WA.AttestedWriter(writerRequest), preflight, request);
    GuardDecides(plan, request, current, prior, observed, receipt, writerRequest, preflight);
  }

  // ------------------------------------------------------------------ the whole run

  /** What the owner's side of an honest run supplies. */
  datatype Owner = Owner(
    preflight: Value, terms: Terms, roots: TrustRoots, entry: RootEntry, issued: Value, now: Value)

  /** What the store's side supplies. */
  datatype Store = Store(
    prior: Master, createdAt: Value, clock: Value, persistedAt: Value, writerRef: Value, attestedAt: Value, clock': Value)

  /** What the writer's side supplies. */
  datatype Writer = Writer(terms: Terms, roots: TrustRoots, entry: RootEntry, issued: Value, now: Value)

  ghost predicate OwnerReady(o: Owner, claims: Claims) {
    && CleanPreflight(o.preflight)
    && o.terms.decision == Text(Authorize) && CP.OperationKind(Get(o.preflight, ACTION_FAMILY)).Some?
    && Presentable(EC.Ceremony(), o.terms, o.roots, o.issued, o.now, o.entry) && Unused(claims, o.terms.nonce)
  }

  predicate CanTake(prior: Master, plan: Value)
    requires Reconstruct(prior).Some?
  {
    && !Known(prior.journal, Get(Get(plan, PATCH_CANDIDATE), RECOMMENDED_EVENT_ID))
    && PlannedRecord(plan).Dict? && RoomFor(Reconstruct(prior).value.snapshot, PlannedRecord(plan).fields)
  }

  /** The checkpoint is readable, has room, and does not know the event yet. */
  predicate StoreReady(s: Store, request: Value) {
    && Reconstruct(s.prior).Some? && |s.prior.journal| < MAX_EVENTS
    && CanTake(s.prior, PlanFor(EC.VerifiedDecision(request), Reconstruct(s.prior).value))
    && s.createdAt.Stamp? && s.persistedAt.Stamp? && s.attestedAt.Stamp?
    && 0 <= s.attestedAt.us - s.persistedAt.us <= MAX_RECEIPT_AGE && Fixed(s.writerRef, 240)
  }

  /** The first half: the decision is verified, and its nonce spent. */
  lemma {:induction false} DecisionSucceeds(o: Owner, claims: Claims) returns (request: Value)
    requires OwnerReady(o, claims)
    ensures Build(EC.Ceremony(), o.preflight, o.roots, o.issued, o.terms) == Some(request)
    ensures Check(EC.Ceremony(), request, Signed(o.entry.publicKey, request), o.preflight, o.roots, o.now) == Success(o.entry)
    ensures OutcomeOf(claims, ClaimOf(EC.Ceremony(), request, o.now)) == Granted
    ensures Authorized(request) && request == EC.Body(o.preflight, o.terms, Fingerprint(o.entry))
    ensures forall k: Key | IsSubject(k) || IsPreflightDigest(k) :: Get(request, k) == Get(o.preflight, k)
  {
    EC.CeremonyIsLawful();
    request := StepSucceeds(EC.Ceremony(), o.preflight, o.terms, o.roots, o.issued, o.now, o.entry, claims);
    RequestIsClean(o.preflight, o.terms, Fingerprint(o.entry));
    assert IsSubject(ACTION_FAMILY);
  }

  /** The second half: the writer acknowledges the receipt, and the command plan is ready
      as far as the input guard lets it. */
  lemma {:induction false} AcknowledgementSucceeds(
    w: Writer, claims: Claims, plan: Value, request: Value, current: Current, prior: Master, observed: Master,
    receipt: Value, preflight: Value)
    returns (writerRequest: Value)
    requires Authorized(request) && CleanPlan(plan, request, current) && observed.stateDigest.Sha?
    requires ReceiptRepeats(receipt, request) && ReceiptBinds(receipt, Get(plan, PATCH_CANDIDATE), prior, observed)
    requires Fixed(Get(receipt, WRITER_REF), 240) && w.terms.decision == Null
    requires CleanPreflight(preflight) && SameSource(preflight, request)
    requires Presentable(WA.Attestation(), w.terms, w.roots, w.issued, w.now, w.entry) && Unused(claims, w.terms.nonce)
    ensures Build(WA.Attestation(), receipt, w.roots, w.issued, w.terms) == Some(writerRequest)
    ensures Check(WA.Attestation(), writerRequest, Signed(w.entry.publicKey, writerRequest), receipt, w.roots, w.now)
         == Success(w.entry)
    ensures OutcomeOf(claims, ClaimOf(WA.Attestation(), writerRequest, w.now)) == Granted
    ensures CP.BuildV2(Attested(plan, prior, observed, receipt), WA.AttestedWriter(writerRequest), preflight).Some? <==>
            && Forwardable(preflight)
            && Harmlessly(Get(receipt, WRITER_REF), w.terms.keyId, w.terms.keyVersion, observed.revision)
  {
    WA.AttestationIsLawful();
    ReceiptCanBeSigned(receipt, request, Get(plan, PATCH_CANDIDATE), prior, observed);
    writerRequest := StepSucceeds(WA.Attestation(), receipt, w.terms, w.roots, w.issued, w.now, w.entry, claims);
    CommandFollows(plan, request, current, prior, observed, receipt, w.terms, w.entry, preflight);
  }

  lemma {:induction false} NextRevision(
    plan: Value, prior: Master, observed: Master, receipt: Value, now: Value, clock: Value)
    requires Attest(plan, prior, observed, receipt, now, clock).Some?
    ensures observed.revision == prior.revision + 1
  {
    AttestedIsExactAppend(plan, prior, observed, receipt, now, clock);
  }

  /** The middle: the verified decision is planned, appended and attested. */
  lemma {:induction false} RecordIsAttested(s: Store, request: Value)
    returns (plan: Value, observed: Master, receipt: Value)
    requires StoreReady(s, request) && Authorized(request)
    ensures BuildPlan(EC.VerifiedDecision(request), s.prior) == Some(plan)
    ensures Expected(plan, s.prior, s.createdAt, s.clock) == Some(observed)
    ensures receipt == Receipt(plan, s.prior, observed, s.persistedAt, s.writerRef)
    ensures Attest(plan, s.prior, observed, receipt, s.attestedAt, s.clock')
         == Some(Attested(plan, s.prior, observed, receipt))
    ensures CleanPlan(plan, request, Reconstruct(s.prior).value) && observed.stateDigest.Sha?
    ensures ReceiptRepeats(receipt, request) && ReceiptBinds(receipt, Get(plan, PATCH_CANDIDATE), s.prior, observed)
    ensures Get(receipt, WRITER_REF) == s.writerRef && observed.revision == s.prior.revision + 1
  {
    PlanIsClean(request, s.prior);
    plan := PlanFor(EC.VerifiedDecision(request), Reconstruct(s.prior).value);
    observed, receipt := PlanIsAttested(
      plan, request, s.prior, s.createdAt, s.clock, s.persistedAt, s.writerRef, s.attestedAt, s.clock');
    NextRevision(plan, s.prior, observed, receipt, s.attestedAt, s.clock');
  }

  /** Honest runs never get stuck before the command plan, and there only at its input
      guard.  With a clean preflight whose identities are fixed, keys that are available,
      unused nonces, times in their windows and a checkpoint with room, the build, the
      verification, the plan, the append, the attestation and the writer's build and
      verification all end in their positive state; and the command plan is ready if and
      only if the preflight may be forwarded and the writer's reference, key and key version
      and the new revision are harmless. */
  lemma {:induction false} HonestRunsGoThrough(o: Owner, s: Store, w: Writer, claims: Claims, claims': Claims)
    returns (request: Value, plan: Value, observed: Master, receipt: Value, writerRequest: Value)
    requires OwnerReady(o, claims) && StoreReady(s, EC.Body(o.preflight, o.terms, Fingerprint(o.entry)))
    requires w.terms.decision == Null
    requires Presentable(WA.Attestation(), w.terms, w.roots, w.issued, w.now, w.entry) && Unused(claims', w.terms.nonce)
    ensures Build(EC.Ceremony(), o.preflight, o.roots, o.issued, o.terms) == Some(request)
    ensures Check(EC.Ceremony(), request, Signed(o.entry.publicKey, request), o.preflight, o.roots, o.now) == Success(o.entry)
    ensures OutcomeOf(claims, ClaimOf(EC.Ceremony(), request, o.now)) == Granted
    ensures BuildPlan(EC.VerifiedDecision(request), s.prior) == Some(plan)
    ensures Expected(plan, s.prior, s.createdAt, s.clock) == Some(observed)
    ensures receipt == Receipt(plan, s.prior, observed, s.persistedAt, s.writerRef)
    ensures Attest(plan, s.prior, observed, receipt, s.attestedAt, s.clock')
         == Some(Attested(plan, s.prior, observed, receipt))
    ensures Build(WA.Attestation(), receipt, w.roots, w.issued, w.terms) == Some(writerRequest)
    ensures Check(WA.Attestation(), writerRequest, Signed(w.entry.publicKey, writerRequest), receipt, w.roots, w.now)
         == Success(w.entry)
    ensures OutcomeOf(claims', ClaimOf(WA.Attestation(), writerRequest, w.now)) == Granted
    ensures CP.BuildV2(Attested(plan, s.prior, observed, receipt), WA.AttestedWriter(writerRequest), o.preflight).Some? <==>
            Forwardable(o.preflight) && Harmlessly(s.writerRef, w.terms.keyId, w.terms.keyVersion, s.prior.revision + 1)
  {
    request := DecisionSucceeds(o, claims);
    plan, observed, receipt := RecordIsAttested(s, request);
    writerRequest := AcknowledgementSucceeds(
      w, claims', plan, request, Reconstruct(s.prior).value, s.prior, observed, receipt, o.preflight);
  }
}
