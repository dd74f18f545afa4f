/** Concrete honest runs, from inputs of the execution preflight on: one that reaches the
    command plan, one that the input guard of the command plan stops because of a customer
    id that every earlier stage accepted, and a READY preflight that the ceremony refuses. */
module HonestExample {
  import opened Wrappers
  import opened Records
  import opened InputGuard
  import opened Nonces
  import opened SignedStep
  import opened Checkpoints
  import opened PersistencePlan
  import opened PersistenceAttestation
  import opened HonestPlan
  import opened HonestForward
  import opened HonestRun
  import CP = CommandPlan
  import EC = ExecutionCeremony
  import PF = ExecutionPreflight
  import S = SafeCopy
  import T = Texts
  import WA = WriterAttestation

  // ----------------------------------------------------- inputs of the preflight

  function Second(n: nat): Value { Stamp(n * 1_000_000, Whole) }

  /** The four documents and the environment differ in their schema, their state and in
      whether the writer's identity is verified; each check reads only its own fields. */
  datatype Kind = Kind(schema: Word, state: Word, verified: bool)

  const PERSISTED := Kind(ActionAttestationSchema, ActionPersistenceAttested, false)
  const WRITER := Kind(ActionWriterSchema, ActionWriterAttested, true)
  const ORIGINAL := Kind(AuthorizationPreflightSchema, ReadyForAuthorizationCeremony, false)
  const ENVIRONMENT_KIND := Kind(ExecutionEnvironmentSchema, VerifiedState, false)

  function SubjectField(customer: Value, k: Key): Value {
    if k == CUSTOMER_ID then customer
    else if k == REQUESTED_CHOICE then Text(RenewAsIsReview)
    else if k == ACTION_FAMILY then Text(Renewal)
    else if k == REVIEW_TYPE then Text(RenewalReview)
    else Text(Genesis)
  }

  function EightRefs(): Value {
    List([Text(Genesis), Text(Healthy), Text(Renewal), Text(Confirmed), Text(Authorize), Text(Deny), Text(MergePatch),
          Text(ControlledMode)])
  }

  predicate IsCarried(k: Key) {
    || k == ACTION_RECORD_DIGEST || k == AUTHORIZATION_PREFLIGHT_DIGEST || AFTER_CHECKPOINT_DIGEST <= k <= RECEIPT_DIGEST
    || k == WRITER_REQUEST_DIGEST || k == PREFLIGHT_DIGEST
  }

  predicate IsTrue(k: Key) {
    || PERSISTENCE_ATTESTED <= k <= RECEIPT_CONSISTENCY_VERIFIED || WRITER_AUTHORITY_VERIFIED <= k <= NONCE_REGISTERED
    || ACTION_RECORD_PERSISTED <= k <= ELIGIBLE_FOR_EXECUTION_PREFLIGHT
    || ACTION_CEREMONY_ELIGIBLE <= k <= FRESH_RECHECK_BEFORE_CEREMONY || k == ACTION_WINDOW_RESERVED || PF.IsRequiredTrue(k)
  }

  predicate IsFalse(k: Key) {
    || k == STORAGE_WRITE_PERFORMED || k == CHECKPOINT_WRITE_PERFORMED || IsAuthority(k) || PF.IsRequiredFalse(k)
    || ACTION_REQUEST_ISSUED <= k <= OWNER_ACTION_SIGNATURE_VERIFIED || k == SCOPE_EXPANSION_ALLOWED
  }

  predicate IsFormed(k: Key) { PF.IsEnvironmentDigest(k) || CONTRACT_DIGEST <= k <= CYCLE_EVIDENCE_DIGEST }

  predicate IsPrecondition(k: Key) { RENEWAL_TERMS_SNAPSHOT_READY <= k <= TERMINATION_PLAN_READY }

  predicate InDocument(k: Key) {
    || SCHEMA <= k <= SCOPE || OWNER_ID <= k <= REVIEW_TYPE || IsCarried(k) || IsTrue(k) || IsFalse(k) || IsFormed(k)
    || k == WRITER_IDENTITY_VERIFIED || k == EVIDENCE_REFS || k == SERVICE_STATE || k == AUTHORIZATION_DECISION
    || k == EXECUTION_MODE || RESERVED_CAPACITY_UNITS <= k <= ACTION_PRECONDITIONS
  }

  function DocumentField(kind: Kind, customer: Value, digest: Value, k: Key): Value {
    if IsCarried(k) then digest
    else if IsTrue(k) then Bool(true)
    else if IsFalse(k) then Bool(false)
    else if IsFormed(k) then Sha(Null)
    else if k == ACTION_PRECONDITIONS then
      Dict(map f: Key | IsPrecondition(f) :: Bool(true))
    else if k == CHECKED_AT then Second(0)
    else if k == PLANNED_MONTHLY_INFRA then Int(0)
    else if RESERVED_CAPACITY_UNITS <= k then Int(1)
    else if k == EXECUTION_MODE then Text(ControlledMode)
    else if k == AUTHORIZATION_DECISION then Text(AuthorizeAction)
    else if k == SERVICE_STATE then Text(Healthy)
    else if k == EVIDENCE_REFS then EightRefs()
    else if k == WRITER_IDENTITY_VERIFIED then Bool(kind.verified)
    else if OWNER_ID <= k then SubjectField(customer, k)
    else if k == SCOPE then Scope()
    else if k == BLOCKERS then List([])
    else Text(if k == STATE then kind.state else kind.schema)
  }

  function Scope(): Value { Dict(map f: Key | IsScopeField(f) :: Text(Genesis)) }

  function Document(kind: Kind, customer: Value, digest: Value): Value {
    Dict(map k: Key | InDocument(k) :: DocumentField(kind, customer, digest, k))
  }

  lemma {:induction false} DocumentFlags(kind: Kind, customer: Value, digest: Value)
    ensures var row := Document(kind, customer, digest);
            && (forall k: Key | IsTrue(k) :: Get(row, k) == Bool(true))
            && (forall k: Key | IsFalse(k) :: Get(row, k) == Bool(false))
  {
  }

  lemma {:induction false} DocumentDigests(kind: Kind, customer: Value, digest: Value)
    ensures var row := Document(kind, customer, digest);
            && (forall k: Key | IsCarried(k) :: Get(row, k) == digest)
            && (forall k: Key | IsFormed(k) :: Get(row, k) == Sha(Null))
  {
  }

  lemma {:induction false} DocumentHead(kind: Kind, customer: Value, digest: Value)
    ensures var row := Document(kind, customer, digest);
            && Get(row, SCHEMA) == Text(kind.schema) && Get(row, STATE) == Text(kind.state) && Get(row, BLOCKERS) == List([])
            && Get(row, SCOPE) == Scope() && Get(row, WRITER_IDENTITY_VERIFIED) == Bool(kind.verified)
            && Get(row, AUTHORIZATION_DECISION) == Text(AuthorizeAction)
  {
  }

  lemma {:induction false} DocumentRest(kind: Kind, customer: Value, digest: Value)
    ensures var row := Document(kind, customer, digest);
            && Get(row, EXECUTION_MODE) == Text(ControlledMode) && Get(row, SERVICE_STATE) == Text(Healthy)
            && Get(row, EVIDENCE_REFS) == EightRefs() && Get(row, CHECKED_AT) == Second(0)
            && Get(row, RESERVED_CAPACITY_UNITS) == Int(1) && Get(row, AVAILABLE_CAPACITY_UNITS) == Int(1)
            && Get(row, PLANNED_MONTHLY_INFRA) == Int(0)
            && Get(Get(row, ACTION_PRECONDITIONS), RENEWAL_TERMS_SNAPSHOT_READY) == Bool(true)
            && Get(Get(row, ACTION_PRECONDITIONS), SERVICE_CONTINUITY_PLAN_READY) == Bool(true)
  {
  }

  lemma {:induction false} DocumentSubject(kind: Kind, customer: Value, digest: Value, k: Key)
    requires OWNER_ID <= k <= REVIEW_TYPE
    ensures Get(Document(kind, customer, digest), k) == SubjectField(customer, k)
  {
  }

  /** Every check reads the identities of the example as they are. */
  lemma {:induction false} SubjectIsFixed(kind: Kind, customer: Value, digest: Value, k: Key)
    requires Fixed(customer, 120) && IsIdentity(k)
    ensures PF.Subject(Document(kind, customer, digest), k) == SubjectField(customer, k) != EMPTY
  {
    DocumentSubject(kind, customer, digest, k);
  }

  lemma {:induction false} ScopeIsGenesis(kind: Kind, customer: Value, digest: Value)
    ensures var genesis := ScopeTriple(Text(Genesis), Text(Genesis), Text(Genesis));
            ScopeOf(Scope()) == ScopeOf(Document(kind, customer, digest)) == genesis
  {
    DocumentSubject(kind, customer, digest, OWNER_ID);
    DocumentSubject(kind, customer, digest, TENANT_ID);
    DocumentSubject(kind, customer, digest, WORKSPACE_ID);
  }

  lemma {:induction false} CarriedIsRead(kind: Kind, customer: Value, digest: Value, k: Key)
    requires IsCarried(k)
    ensures PF.DigestIn(Document(kind, customer, digest), k) == TextOf(digest, 180)
  {
    DocumentDigests(kind, customer, digest);
  }

  lemma {:induction false} FamilyIsSupported()
    ensures PF.PreconditionsOf(Text(Renewal)) == {RENEWAL_TERMS_SNAPSHOT_READY, SERVICE_CONTINUITY_PLAN_READY}
    ensures CP.FamilyOfChoice(Text(RenewAsIsReview)) == Some(Text(Renewal))
    ensures PF.ServiceStateFor(Text(RenewalReview)) == Some(Text(Healthy))
  {
  }

  function Genesises(): ScopeTriple { ScopeTriple(Text(Genesis), Text(Genesis), Text(Genesis)) }

  lemma {:induction false} Subjects(kind: Kind, customer: Value, digest: Value)
    requires Fixed(customer, 120)
    ensures forall k: Key | IsIdentity(k) ::
              PF.Subject(Document(kind, customer, digest), k) == SubjectField(customer, k) != EMPTY
  {
    forall k: Key | IsIdentity(k)
      ensures PF.Subject(Document(kind, customer, digest), k) == SubjectField(customer, k) != EMPTY
    {
      SubjectIsFixed(kind, customer, digest, k);
    }
  }

  lemma {:induction false} CarriedAreRead(kind: Kind, customer: Value, digest: Value)
    ensures forall k: Key | IsCarried(k) :: PF.DigestIn(Document(kind, customer, digest), k) == TextOf(digest, 180)
    ensures forall k: Key | IsFormed(k) :: PF.DigestIn(Document(kind, customer, digest), k) == Sha(Null)
  {
    DocumentDigests(kind, customer, digest);
    forall k: Key | IsCarried(k) || IsFormed(k)
      ensures IsCarried(k) ==> PF.DigestIn(Document(kind, customer, digest), k) == TextOf(digest, 180)
      ensures IsFormed(k) ==> PF.DigestIn(Document(kind, customer, digest), k) == Sha(Null)
    {
    }
  }

  lemma {:induction false} PersistedIsOk(row: Value)
    requires (forall k: Key | IsTrue(k) :: Get(row, k) == Bool(true))
    requires (forall k: Key | IsFalse(k) :: Get(row, k) == Bool(false))
    requires Get(row, SCHEMA) == Text(ActionAttestationSchema) && Get(row, STATE) == Text(ActionPersistenceAttested)
    requires Get(row, AUTHORIZATION_DECISION) == Text(AuthorizeAction) && ScopeOf(Get(row, SCOPE)) == Genesises()
    requires Get(row, WRITER_IDENTITY_VERIFIED) == Bool(false)
    requires forall k: Key | IsIdentity(k) :: PF.Subject(row, k) != EMPTY
    requires PF.Subject(row, ACTION_FAMILY) == Text(Renewal) && PF.Subject(row, REQUESTED_CHOICE) == Text(RenewAsIsReview)
    requires PF.Subject(row, REVIEW_TYPE) == Text(RenewalReview)
    requires forall k: Key | IsCarried(k) || IsFormed(k) :: PF.DigestIn(row, k) != EMPTY
    ensures PF.PersistedOk(row, Genesises())
  {
    FamilyIsSupported();
  }

  lemma {:induction false} WriterIsOk(row: Value, persisted: Value)
    requires (forall k: Key | IsTrue(k) :: Get(row, k) == Bool(true))
    requires (forall k: Key | IsFalse(k) :: Get(row, k) == Bool(false))
    requires Get(row, SCHEMA) == Text(ActionWriterSchema) && Get(row, STATE) == Text(ActionWriterAttested)
    requires Get(row, WRITER_IDENTITY_VERIFIED) == Bool(true) && Get(row, AUTHORIZATION_DECISION) == Text(AuthorizeAction)
    requires forall k: Key | CUSTOMER_ID <= k <= ACTION_FAMILY :: PF.DigestIn(row, k) == PF.Subject(persisted, k)
    requires forall k: Key | IsCarried(k) :: PF.DigestIn(row, k) == PF.DigestIn(persisted, k)
    ensures PF.WriterOk(row, persisted)
  {
  }

  lemma {:induction false} OriginalIsOk(row: Value, persisted: Value)
    requires (forall k: Key | IsTrue(k) :: Get(row, k) == Bool(true))
    requires (forall k: Key | IsFalse(k) :: Get(row, k) == Bool(false))
    requires Get(row, SCHEMA) == Text(AuthorizationPreflightSchema)
    requires Get(row, STATE) == Text(ReadyForAuthorizationCeremony) && Get(row, BLOCKERS) == List([])
    requires ScopeOf(Get(row, SCOPE)) == Genesises()
    requires forall k: Key | IsIdentity(k) :: PF.Subject(row, k) == PF.Subject(persisted, k)
    requires forall k: Key | IsCarried(k) :: PF.DigestIn(row, PREFLIGHT_DIGEST) == PF.DigestIn(persisted, k)
    ensures PF.OriginalOk(row, persisted, Genesises())
  {
  }

  lemma {:induction false} EnoughRefs(row: Value)
    requires Get(row, EVIDENCE_REFS) == EightRefs()
    ensures |PF.RefsOf(Get(row, EVIDENCE_REFS))| >= 8
  {
    DistinctWords(EightRefs().items);
  }

  lemma {:induction false} DistinctWords(items: seq<Value>)
    requires forall i | 0 <= i < |items| :: items[i].Text?
    requires forall i, j | 0 <= i < j < |items| :: items[i] != items[j]
    ensures DistinctTexts(items, 320) == items
  {
    if items != [] { DistinctWords(items[..|items| - 1]); }
  }

  lemma {:induction false} EnvironmentFlags(row: Value)
    requires (forall k: Key | IsTrue(k) :: Get(row, k) == Bool(true))
    requires (forall k: Key | IsFalse(k) :: Get(row, k) == Bool(false))
    requires forall k: Key | IsFormed(k) :: Get(row, k) == Sha(Null)
    ensures forall k: Key | PF.IsRequiredTrue(k) :: Get(row, k) == Bool(true)
    ensures forall k: Key | PF.IsRequiredFalse(k) :: Get(row, k) == Bool(false)
    ensures forall k: Key | PF.IsEnvironmentDigest(k) :: Get(row, k).Sha?
    ensures Get(row, ACTION_WINDOW_RESERVED) == Bool(true) && Get(row, SCOPE_EXPANSION_ALLOWED) == Bool(false)
  {
    assert IsTrue(ACTION_WINDOW_RESERVED) && IsFalse(SCOPE_EXPANSION_ALLOWED);
  }

  lemma {:induction false} PreconditionsHold(row: Value, family: Value)
    requires family == Text(Renewal)
    requires Get(Get(row, ACTION_PRECONDITIONS), RENEWAL_TERMS_SNAPSHOT_READY) == Bool(true)
    requires Get(Get(row, ACTION_PRECONDITIONS), SERVICE_CONTINUITY_PLAN_READY) == Bool(true)
    ensures forall k | k in PF.PreconditionsOf(family) :: Get(Get(row, ACTION_PRECONDITIONS), k) == Bool(true)
  {
    FamilyIsSupported();
  }

  lemma {:induction false} EnvironmentIsOk(row: Value, persisted: Value)
    requires forall k: Key | PF.IsRequiredTrue(k) :: Get(row, k) == Bool(true)
    requires forall k: Key | PF.IsRequiredFalse(k) :: Get(row, k) == Bool(false)
    requires forall k: Key | PF.IsEnvironmentDigest(k) :: Get(row, k).Sha?
    requires Get(row, ACTION_WINDOW_RESERVED) == Bool(true) && Get(row, SCOPE_EXPANSION_ALLOWED) == Bool(false)
    requires PF.DigestIn(row, CONTRACT_DIGEST) == PF.DigestIn(persisted, CONTRACT_DIGEST)
    requires PF.DigestIn(row, CYCLE_EVIDENCE_DIGEST) == PF.DigestIn(persisted, CYCLE_EVIDENCE_DIGEST)
    requires Get(row, SCHEMA) == Text(ExecutionEnvironmentSchema) && Get(row, STATE) == Text(VerifiedState)
    requires ScopeOf(row) == Genesises() && Get(row, EXECUTION_MODE) == Text(ControlledMode)
    requires forall k: Key | IsIdentity(k) :: PF.Subject(row, k) == PF.Subject(persisted, k)
    requires Some(TextOf(Get(row, SERVICE_STATE), 120)) == PF.ServiceStateFor(PF.Subject(persisted, REVIEW_TYPE))
    requires forall k | k in PF.PreconditionsOf(PF.Subject(persisted, ACTION_FAMILY)) ::
               Get(Get(row, ACTION_PRECONDITIONS), k) == Bool(true)
    requires PF.CapacityOk(row) && |PF.RefsOf(Get(row, EVIDENCE_REFS))| >= 8 && Get(row, CHECKED_AT) == Second(0)
    ensures PF.EnvironmentOk(row, persisted, Genesises(), Second(0))
  {
  }

  // -------------------------------------------------------- what the gate says

  /** The READY verdict of the example, or nothing. */
  function Verdict(customer: Value, digest: Value): Option<Value> {
    PF.Evaluate(Scope(), Document(PERSISTED, customer, digest), Document(WRITER, customer, digest),
                Document(ORIGINAL, customer, digest), Document(ENVIRONMENT_KIND, customer, digest), Second(0))
  }

  lemma {:induction false} ExamplePersisted(customer: Value, digest: Value)
    requires Fixed(customer, 120) && TextOf(digest, 180) != EMPTY
    ensures PF.PersistedOk(Document(PERSISTED, customer, digest), Genesises())
  {
    DocumentFlags(PERSISTED, customer, digest);
    DocumentHead(PERSISTED, customer, digest);
    Subjects(PERSISTED, customer, digest);
    ScopeIsGenesis(PERSISTED, customer, digest);
    CarriedAreRead(PERSISTED, customer, digest);
    PersistedIsOk(Document(PERSISTED, customer, digest));
  }

  lemma {:induction false} WriterNames(customer: Value, digest: Value)
    requires Fixed(customer, 120)
    ensures forall k: Key | CUSTOMER_ID <= k <= ACTION_FAMILY ::
              PF.DigestIn(Document(WRITER, customer, digest), k) == PF.Subject(Document(PERSISTED, customer, digest), k)
  {
    Subjects(PERSISTED, customer, digest);
    FixedWithin(customer, 120, 180);
    forall k: Key | CUSTOMER_ID <= k <= ACTION_FAMILY
      ensures PF.DigestIn(Document(WRITER, customer, digest), k) == SubjectField(customer, k)
    {
      DocumentSubject(WRITER, customer, digest, k);
    }
  }

  lemma {:induction false} ExampleWriter(customer: Value, digest: Value)
    requires Fixed(customer, 120)
    ensures PF.WriterOk(Document(WRITER, customer, digest), Document(PERSISTED, customer, digest))
  {
    DocumentFlags(WRITER, customer, digest);
    DocumentHead(WRITER, customer, digest);
    WriterNames(customer, digest);
    CarriedAreRead(WRITER, customer, digest);
    CarriedAreRead(PERSISTED, customer, digest);
    WriterIsOk(Document(WRITER, customer, digest), Document(PERSISTED, customer, digest));
  }

  lemma {:induction false} ExampleOriginal(customer: Value, digest: Value)
    requires Fixed(customer, 120)
    ensures PF.OriginalOk(Document(ORIGINAL, customer, digest), Document(PERSISTED, customer, digest), Genesises())
  {
    DocumentFlags(ORIGINAL, customer, digest);
    DocumentHead(ORIGINAL, customer, digest);
    Subjects(ORIGINAL, customer, digest);
    Subjects(PERSISTED, customer, digest);
    ScopeIsGenesis(ORIGINAL, customer, digest);
    CarriedAreRead(ORIGINAL, customer, digest);
    CarriedAreRead(PERSISTED, customer, digest);
    assert IsCarried(PREFLIGHT_DIGEST);
    OriginalIsOk(Document(ORIGINAL, customer, digest), Document(PERSISTED, customer, digest));
  }

  lemma {:induction false} EnoughCapacity(row: Value)
    requires Get(row, RESERVED_CAPACITY_UNITS) == Int(1) && Get(row, AVAILABLE_CAPACITY_UNITS) == Int(1)
    requires Get(row, PLANNED_MONTHLY_INFRA) == Int(0)
    ensures PF.CapacityOk(row)
  {
  }

  lemma {:induction false} SameSubjects(customer: Value, digest: Value)
    requires Fixed(customer, 120)
    ensures var row, persisted := Document(ENVIRONMENT_KIND, customer, digest), Document(PERSISTED, customer, digest);
            && (forall k: Key | IsIdentity(k) :: PF.Subject(row, k) == PF.Subject(persisted, k))
            && PF.Subject(persisted, ACTION_FAMILY) == Text(Renewal) && PF.Subject(persisted, REVIEW_TYPE) == Text(RenewalReview)
  {
    Subjects(ENVIRONMENT_KIND, customer, digest);
    Subjects(PERSISTED, customer, digest);
  }

  lemma {:induction false} EnvironmentRest(row: Value, persisted: Value)
    requires PF.Subject(persisted, ACTION_FAMILY) == Text(Renewal) && PF.Subject(persisted, REVIEW_TYPE) == Text(RenewalReview)
    requires Get(row, SERVICE_STATE) == Text(Healthy) && Get(row, EVIDENCE_REFS) == EightRefs()
    requires Get(Get(row, ACTION_PRECONDITIONS), RENEWAL_TERMS_SNAPSHOT_READY) == Bool(true)
    requires Get(Get(row, ACTION_PRECONDITIONS), SERVICE_CONTINUITY_PLAN_READY) == Bool(true)
    ensures Some(TextOf(Get(row, SERVICE_STATE), 120)) == PF.ServiceStateFor(PF.Subject(persisted, REVIEW_TYPE))
    ensures forall k | k in PF.PreconditionsOf(PF.Subject(persisted, ACTION_FAMILY)) ::
              Get(Get(row, ACTION_PRECONDITIONS), k) == Bool(true)
    ensures |PF.RefsOf(Get(row, EVIDENCE_REFS))| >= 8
  {
    FamilyIsSupported();
    PreconditionsHold(row, PF.Subject(persisted, ACTION_FAMILY));
    EnoughRefs(row);
  }

  lemma {:induction false} ExampleEnvironment(customer: Value, digest: Value)
    requires Fixed(customer, 120)
    ensures PF.EnvironmentOk(Document(ENVIRONMENT_KIND, customer, digest), Document(PERSISTED, customer, digest), Genesises(),
                             Second(0))
  {
    var row, persisted := Document(ENVIRONMENT_KIND, customer, digest), Document(PERSISTED, customer, digest);
    DocumentFlags(ENVIRONMENT_KIND, customer, digest);
    DocumentDigests(ENVIRONMENT_KIND, customer, digest);
    EnvironmentFlags(row);
    DocumentHead(ENVIRONMENT_KIND, customer, digest);
    DocumentRest(ENVIRONMENT_KIND, customer, digest);
    SameSubjects(customer, digest);
    ScopeIsGenesis(ENVIRONMENT_KIND, customer, digest);
    CarriedAreRead(ENVIRONMENT_KIND, customer, digest);
    CarriedAreRead(PERSISTED, customer, digest);
    assert IsFormed(CONTRACT_DIGEST) && IsFormed(CYCLE_EVIDENCE_DIGEST);
    EnoughCapacity(row);
    EnvironmentRest(row, persisted);
    EnvironmentIsOk(row, persisted);
  }

  lemma {:induction false} EvaluateHolds(
    trustedScope: Value, persisted: Value, writer: Value, original: Value, row: Value, now: Value)
    requires Complete(ScopeOf(trustedScope)) && PF.PersistedOk(persisted, ScopeOf(trustedScope))
    requires PF.WriterOk(writer, persisted) && PF.OriginalOk(original, persisted, ScopeOf(trustedScope))
    requires PF.EnvironmentOk(row, persisted, ScopeOf(trustedScope), now)
    ensures PF.Evaluate(trustedScope, persisted, writer, original, row, now).Some?
  {
  }

  lemma {:induction false} ScopeIsRead()
    ensures ScopeOf(Scope()) == Genesises()
  {
    ScopeIsGenesis(PERSISTED, Null, Null);
  }

  /** The gate is READY for the example whenever the customer id is normalised and the text
      in place of the five upstream digests is not blank. */
  lemma {:induction false} ExampleIsReady(customer: Value, digest: Value)
    requires Fixed(customer, 120) && TextOf(digest, 180) != EMPTY
    ensures Verdict(customer, digest).Some?
  {
    ScopeIsRead();
    ExamplePersisted(customer, digest);
    ExampleWriter(customer, digest);
    ExampleOriginal(customer, digest);
    ExampleEnvironment(customer, digest);
    EvaluateHolds(Scope(), Document(PERSISTED, customer, digest), Document(WRITER, customer, digest),
                  Document(ORIGINAL, customer, digest), Document(ENVIRONMENT_KIND, customer, digest), Second(0));
  }

  /** A single-spaced text within the limit is normalised. */
  lemma {:induction false} SpacedIsFixed(text: string, limit: nat)
    requires T.Spaced(text) && T.NUL !in text && 0 < |text| <= limit
    ensures Fixed(Str(text), limit)
  {
    T.SpacedIsNormal(text);
    assert T.DropNul(text) == text;
  }

  /** READY preflights that the owner's ceremony refuses: any text but a digest in the place
      of the five upstream digests will do. */
  lemma {:induction false} ReadyButRefused(customer: Value, digest: Value)
    requires Fixed(customer, 120) && TextOf(digest, 180) != EMPTY && !digest.Sha?
    ensures Verdict(customer, digest).Some? && !EC.PreflightOk(Verdict(customer, digest).value)
  {
    ExampleIsReady(customer, digest);
    DocumentDigests(PERSISTED, customer, digest);
    assert IsCarried(ACTION_RECORD_DIGEST);
    PF.ReadyIsTakenIff(Scope(), Document(PERSISTED, customer, digest), Document(WRITER, customer, digest),
                       Document(ORIGINAL, customer, digest), Document(ENVIRONMENT_KIND, customer, digest), Second(0));
  }

  /** For instance the text "x". */
  lemma {:induction false} SuchATextExists()
    ensures TextOf(Str("x"), 180) != EMPTY
  {
    assert T.Spaced("x");
    SpacedIsFixed("x", 180);
  }

  // ----------------------------------------------------------- the clean verdict

  lemma {:induction false} ExampleDigestsInForm(customer: Value)
    ensures PF.DigestsInForm(Document(PERSISTED, customer, Sha(Null)), Document(WRITER, customer, Sha(Null)))
  {
    DocumentDigests(PERSISTED, customer, Sha(Null));
    DocumentDigests(WRITER, customer, Sha(Null));
    assert IsCarried(ACTION_RECORD_DIGEST) && IsCarried(AUTHORIZATION_PREFLIGHT_DIGEST) && IsCarried(RECEIPT_DIGEST);
    assert IsCarried(AFTER_CHECKPOINT_DIGEST) && IsCarried(WRITER_REQUEST_DIGEST);
  }

  lemma {:induction false} ScopeFieldIsGenesis(k: Key)
    ensures PF.ScopeField(Genesises(), k) == Text(Genesis)
  {
  }

  /** The subject of the verdict is that of the example. */
  lemma {:induction false} VerdictSubjects(r: Value, persisted: Value, writer: Value, row: Value, customer: Value)
    requires r == PF.Verdict(Genesises(), persisted, writer, row)
    requires forall k: Key | IsIdentity(k) :: PF.Subject(persisted, k) == SubjectField(customer, k)
    ensures forall k: Key | OWNER_ID <= k <= REVIEW_TYPE :: Get(r, k) == SubjectField(customer, k)
  {
    PF.VerdictSubject(Genesises(), persisted, writer, row);
    forall k: Key | OWNER_ID <= k <= REVIEW_TYPE
      ensures Get(r, k) == SubjectField(customer, k)
    {
      if IsScopeField(k) { ScopeFieldIsGenesis(k); } else { assert IsIdentity(k); }
    }
  }

  lemma {:induction false} VerdictValue(customer: Value)
    requires Verdict(customer, Sha(Null)).Some?
    ensures Verdict(customer, Sha(Null)).value
         == PF.Verdict(Genesises(), Document(PERSISTED, customer, Sha(Null)), Document(WRITER, customer, Sha(Null)),
                       Document(ENVIRONMENT_KIND, customer, Sha(Null)))
  {
    PF.ReadyFacts(Scope(), Document(PERSISTED, customer, Sha(Null)), Document(WRITER, customer, Sha(Null)),
                  Document(ORIGINAL, customer, Sha(Null)), Document(ENVIRONMENT_KIND, customer, Sha(Null)), Second(0));
    ScopeIsRead();
  }

  lemma {:induction false} SubjectsAreFixed(r: Value, customer: Value)
    requires Fixed(customer, 120)
    requires forall k: Key | OWNER_ID <= k <= REVIEW_TYPE :: Get(r, k) == SubjectField(customer, k)
    ensures FixedSubject(r) && Get(r, ACTION_FAMILY) == Text(Renewal)
    ensures HarmlessSubject(r) <==> Harmless(customer)
  {
    forall k: Key | IsIdentity(k)
      ensures Fixed(Get(r, k), CP.IdentityLimit(k)) && (k != CUSTOMER_ID ==> Harmless(Get(r, k)))
    {
      assert Get(r, k) == SubjectField(customer, k);
    }
    forall k: Key | IsScopeField(k)
      ensures Fixed(Get(r, k), 120) && Harmless(Get(r, k))
    {
      assert Get(r, k) == SubjectField(customer, k);
    }
    assert Get(r, CUSTOMER_ID) == customer;
  }

  /** With formed digests the verdict is clean, and it may be forwarded exactly when the
      customer id is harmless. */
  lemma {:induction false} ExamplePreflight(customer: Value) returns (r: Value)
    requires Fixed(customer, 120)
    ensures Verdict(customer, Sha(Null)) == Some(r)
    ensures CleanPreflight(r) && (Forwardable(r) <==> Harmless(customer)) && Get(r, ACTION_FAMILY) == Text(Renewal)
  {
    var persisted, writer := Document(PERSISTED, customer, Sha(Null)), Document(WRITER, customer, Sha(Null));
    var original, row := Document(ORIGINAL, customer, Sha(Null)), Document(ENVIRONMENT_KIND, customer, Sha(Null));
    ExampleIsReady(customer, Sha(Null));
    r := Verdict(customer, Sha(Null)).value;
    VerdictValue(customer);
    Subjects(PERSISTED, customer, Sha(Null));
    VerdictSubjects(r, persisted, writer, row, customer);
    SubjectsAreFixed(r, customer);
    ExampleDigestsInForm(customer);
    PF.ReadyIsCleanIff(Scope(), persisted, writer, original, row, Second(0));
    EvaluatedIsForwardable(Scope(), persisted, writer, original, row, Second(0));
  }

  // --------------------------------------------------------- keys, times and store

  const ENTRY := RootEntry(7, Active, 0, 1_000_000_000)

  const ROOTS := TrustRoots(map[("k", 1) := ENTRY], {})

  const TOKEN: string := "aaaaaaaaaaaaaaaa"

  /** Terms that such a protocol accepts from the 10th second to the 60th. */
  lemma {:induction false} SomeTerms(p: Protocol, decision: Value) returns (t: Terms)
    requires p.maxWindow >= 50_000_000 && (p.decides ==> IsDecision(decision))
    ensures t.decision == decision && Presentable(p, t, ROOTS, Second(20), Second(30), ENTRY)
    ensures t.keyId == Str("k") && t.keyVersion == Int(1)
  {
    t := Terms(Str(TOKEN), Str(TOKEN), Str("k"), Int(1), decision, Second(10), Second(60));
  }

  /** A checkpoint in which nothing has happened yet. */
  function Empty(): Master {
    Master(true, 0, 0, Dict(map[]), Sha(Dict(map[])), [], Text(Genesis), Sha(Dict(map[])), 0, Null)
  }

  lemma {:induction false} EmptyIsReadable()
    ensures Reconstruct(Empty()) == Some(Current(map[], 0, Sha(Dict(map[]))))
  {
  }

  function AStore(): Store { Store(Empty(), Second(31), Second(31), Second(32), Str("w"), Second(33), Second(33)) }

  lemma {:induction false} OwnerIsReady(preflight: Value, t: Terms)
    requires CleanPreflight(preflight) && CP.OperationKind(Get(preflight, ACTION_FAMILY)).Some?
    requires t.decision == Text(Authorize) && Presentable(EC.Ceremony(), t, ROOTS, Second(20), Second(30), ENTRY)
    ensures OwnerReady(Owner(preflight, t, ROOTS, ENTRY, Second(20), Second(30)), map[])
  {
  }

  lemma {:induction false} EmptyTakesPlan(plan: Value)
    requires PlannedRecord(plan).Dict?
    ensures Reconstruct(Empty()).Some? && CanTake(Empty(), plan)
  {
    EmptyIsReadable();
  }

  lemma {:induction false} WriterRefIsFixed()
    ensures Fixed(Str("w"), 240)
  {
    assert T.Spaced("w");
    SpacedIsFixed("w", 240);
  }

  lemma {:induction false} StoreIsReady(request: Value)
    requires CleanRequest(request)
    ensures StoreReady(AStore(), request)
  {
    EmptyIsReadable();
    PlannedFields(request, Reconstruct(Empty()).value);
    EmptyTakesPlan(PlanFor(EC.VerifiedDecision(request), Reconstruct(Empty()).value));
    WriterRefIsFixed();
  }

  // ------------------------------------------------------------------- the runs

  lemma {:induction false} OwnerTerms() returns (t: Terms)
    ensures t.decision == Text(Authorize) && Presentable(EC.Ceremony(), t, ROOTS, Second(20), Second(30), ENTRY)
  {
    t := SomeTerms(EC.Ceremony(), Text(Authorize));
  }

  lemma {:induction false} RenewalIsSupported(preflight: Value)
    requires Get(preflight, ACTION_FAMILY) == Text(Renewal)
    ensures CP.OperationKind(Get(preflight, ACTION_FAMILY)).Some?
  {
  }

  lemma {:induction false} AnOwner(preflight: Value) returns (o: Owner)
    requires CleanPreflight(preflight) && Get(preflight, ACTION_FAMILY) == Text(Renewal)
    ensures o.preflight == preflight && OwnerReady(o, map[])
  {
    var t := OwnerTerms();
    RenewalIsSupported(preflight);
    o := Owner(preflight, t, ROOTS, ENTRY, Second(20), Second(30));
    OwnerIsReady(preflight, t);
  }

  lemma {:induction false} OwnersRequest(o: Owner)
    requires OwnerReady(o, map[])
    ensures CleanRequest(EC.Body(o.preflight, o.terms, Fingerprint(o.entry)))
  {
    RequestIsClean(o.preflight, o.terms, Fingerprint(o.entry));
  }

  lemma {:induction false} OneLetterIsSafe(c: char)
    requires 'a' <= c <= 'z'
    ensures S.SafeText([c])
  {
    assert !S.DottedQuad([c]);
  }

  lemma {:induction false} AWriter(writerRef: Value, revision: int) returns (w: Writer)
    requires writerRef == Str("w") && revision == 1
    ensures w.terms.decision == Null && Unused(map[], w.terms.nonce)
    ensures Presentable(WA.Attestation(), w.terms, w.roots, w.issued, w.now, w.entry)
    ensures Harmlessly(writerRef, w.terms.keyId, w.terms.keyVersion, revision)
  {
    var t := SomeTerms(WA.Attestation(), Null);
    w := Writer(t, ROOTS, ENTRY, Second(20), Second(30));
    OneLetterIsSafe('w');
    OneLetterIsSafe('k');
  }

  /** The premises of the honest run can be met together, with any clean preflight. */
  lemma {:induction false} PremisesCanBeMet(preflight: Value) returns (o: Owner, s: Store, w: Writer)
    requires CleanPreflight(preflight) && Get(preflight, ACTION_FAMILY) == Text(Renewal)
    ensures o.preflight == preflight
    ensures OwnerReady(o, map[]) && StoreReady(s, EC.Body(o.preflight, o.terms, Fingerprint(o.entry)))
    ensures w.terms.decision == Null && Unused(map[], w.terms.nonce)
    ensures Presentable(WA.Attestation(), w.terms, w.roots, w.issued, w.now, w.entry)
    ensures Harmlessly(s.writerRef, w.terms.keyId, w.terms.keyVersion, s.prior.revision + 1)
  {
    o := AnOwner(preflight);
    OwnersRequest(o);
    s := AStore();
    StoreIsReady(EC.Body(o.preflight, o.terms, Fingerprint(o.entry)));
    w := AWriter(s.writerRef, s.prior.revision + 1);
  }

  /** A run from any clean preflight for a renewal: the record is attested, the writer's
      acknowledgement verified, and only the preflight decides about the command plan. */
  lemma {:induction false} RunFrom(preflight: Value)
    returns (o: Owner, s: Store, w: Writer, plan: Value, observed: Master, receipt: Value, writerRequest: Value)
    requires CleanPreflight(preflight) && Get(preflight, ACTION_FAMILY) == Text(Renewal)
    ensures o.preflight == preflight && OwnerReady(o, map[])
    ensures Attest(plan, s.prior, observed, receipt, s.attestedAt, s.clock')
         == Some(Attested(plan, s.prior, observed, receipt))
    ensures Check(WA.Attestation(), writerRequest, Signed(w.entry.publicKey, writerRequest), receipt, w.roots, w.now)
         == Success(w.entry)
    ensures CP.BuildV2(Attested(plan, s.prior, observed, receipt), WA.AttestedWriter(writerRequest), preflight).Some? <==>
            Forwardable(preflight)
  {
    o, s, w := PremisesCanBeMet(preflight);
    var request;
    request, plan, observed, receipt, writerRequest := HonestRunsGoThrough(o, s, w, map[], map[]);
  }

  /** The whole run of the example, for every normalised customer id: all stages before the
      command plan succeed, and the command plan is made if and only if the customer id is a
      harmless text. */
  lemma {:induction false} ExampleRun(customer: Value)
    returns (o: Owner, s: Store, w: Writer, plan: Value, observed: Master, receipt: Value, writerRequest: Value)
    requires Fixed(customer, 120)
    ensures Verdict(customer, Sha(Null)) == Some(o.preflight)
    ensures Attest(plan, s.prior, observed, receipt, s.attestedAt, s.clock')
         == Some(Attested(plan, s.prior, observed, receipt))
    ensures Check(WA.Attestation(), writerRequest, Signed(w.entry.publicKey, writerRequest), receipt, w.roots, w.now)
         == Success(w.entry)
    ensures CP.BuildV2(Attested(plan, s.prior, observed, receipt), WA.AttestedWriter(writerRequest), o.preflight).Some? <==>
            Harmless(customer)
  {
    var preflight := ExamplePreflight(customer);
    o, s, w, plan, observed, receipt, writerRequest := RunFrom(preflight);
  }

  const ADDRESS: string := "www.acme"

  lemma {:induction false} PrefixIsMentioned(text: string, word: string)
    requires |word| <= |text| && T.Lower(text)[..|word|] == word
    ensures S.Mentions(text, word)
  {
    assert S.OccursAt(T.Lower(text), 0, word);
  }

  lemma {:induction false} AddressIsUnsafe()
    ensures !S.SafeText(ADDRESS)
  {
    assert |ADDRESS| == 8 && ADDRESS[0] == 'w' && ADDRESS[1] == 'w' && ADDRESS[2] == 'w' && ADDRESS[3] == '.';
    assert T.Lower(ADDRESS)[..4] == "www.";
    PrefixIsMentioned(ADDRESS, "www.");
  }

  lemma {:induction false} LetterIsFixed()
    ensures Fixed(Str("a"), 120)
  {
    assert T.Spaced("a");
    SpacedIsFixed("a", 120);
  }

  lemma {:induction false} AddressIsFixed()
    ensures Fixed(Str(ADDRESS), 120)
  {
    assert T.Spaced(ADDRESS);
    SpacedIsFixed(ADDRESS, 120);
  }

  /** Both cases occur: "a" is a harmless customer id, and "www.acme" is not, although every
      stage before the command plan accepts it. */
  lemma {:induction false} BothCasesOccur()
    ensures Fixed(Str("a"), 120) && Harmless(Str("a"))
    ensures Fixed(Str(ADDRESS), 120) && !Harmless(Str(ADDRESS))
  {
    OneLetterIsSafe('a');
    LetterIsFixed();
    AddressIsFixed();
    AddressIsUnsafe();
  }
}
