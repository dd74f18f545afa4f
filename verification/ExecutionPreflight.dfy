/** The execution preflight: the gate in front of the owner's ceremony, and exactly when
    its READY verdict is one that the ceremony will take. */
module ExecutionPreflight {
  import opened Wrappers
  import opened Records
  import CP = CommandPlan
  import EC = ExecutionCeremony
  import HP = HonestPlan
  import T = Texts

  const MAX_ENVIRONMENT_AGE := 120_000_000
  const FUTURE_TOLERANCE := 5_000_000
  const MAX_MONTHLY_INFRA := 200.0

  // ------------------------------------------------------------------- the tables

  function ServiceStateFor(review: Value): Option<Value> {
    if review == Text(RenewalReview) then Some(Text(Healthy))
    else if review == Text(RemediationReview) then Some(Text(Remediation))
    else if review == Text(CapacityReview) then Some(Text(CapacityHold))
    else if review == Text(IncidentReview) then Some(Text(IncidentReview))
    else None
  }

  /** `ACTION_REQUIRED_PRECONDITIONS`; no family without an entry is supported. */
  function PreconditionsOf(family: Value): set<Key> {
    if !family.Text? then {}
    else
      match family.word
      case Renewal => {RENEWAL_TERMS_SNAPSHOT_READY, SERVICE_CONTINUITY_PLAN_READY}
      case RenewalWithChanges => {CHANGE_SCOPE_LOCKED, CONTRACT_CHANGE_PACKET_READY, SERVICE_CONTINUITY_PLAN_READY}
      case NonRenewal => {OFFBOARDING_PLAN_READY, DATA_RETENTION_PLAN_READY, CUSTOMER_NOTICE_PLAN_READY}
      case Remediation => {REMEDIATION_PLAN_READY, REMEDIATION_OWNER_READY}
      case CapacityRescope => {CAPACITY_PLAN_READY, QUOTA_CHANGE_PLAN_READY}
      case Repricing => {PRICING_PACKET_READY, CONTRACT_CHANGE_PACKET_READY}
      case IncidentRemediation => {INCIDENT_CONTAINMENT_READY, INCIDENT_REMEDIATION_PLAN_READY}
      case ServicePause => {PAUSE_PLAN_READY, CUSTOMER_IMPACT_ASSESSED}
      case ServiceTermination => {TERMINATION_PLAN_READY, DATA_RETENTION_PLAN_READY, CUSTOMER_IMPACT_ASSESSED}
      case _ => {}
  }

  // ------------------------------------------------------------------ the subject

  /** The identity that the persisted authorisation names, as every check reads it. */
  function Subject(persisted: Value, k: Key): Value { CP.IdentityText(persisted, k, 40) }

  function DigestIn(row: Value, k: Key): Value { TextOf(Get(row, k), 180) }

  predicate PersistedOk(row: Value, trusted: ScopeTriple) {
    && Get(row, SCHEMA) == Text(ActionAttestationSchema) && Get(row, STATE) == Text(ActionPersistenceAttested)
    && Get(row, AUTHORIZATION_DECISION) == Text(AuthorizeAction) && ScopeOf(Get(row, SCOPE)) == trusted
    && Get(row, ACTION_RECORD_PERSISTED) == Bool(true) && Get(row, PERSISTENCE_ATTESTED) == Bool(true)
    && Get(row, RECEIPT_CONSISTENCY_VERIFIED) == Bool(true) && Get(row, WRITER_IDENTITY_VERIFIED) == Bool(false)
    && Get(row, ELIGIBLE_FOR_EXECUTION_PREFLIGHT) == Bool(true) && Get(row, STORAGE_WRITE_PERFORMED) == Bool(false)
    && NoAuthority(row)
    && (forall k: Key | IsIdentity(k) :: Subject(row, k) != EMPTY)
    && DigestIn(row, ACTION_RECORD_DIGEST) != EMPTY && DigestIn(row, RECEIPT_DIGEST) != EMPTY
    && DigestIn(row, AFTER_CHECKPOINT_DIGEST) != EMPTY && DigestIn(row, AUTHORIZATION_PREFLIGHT_DIGEST) != EMPTY
    && DigestIn(row, CONTRACT_DIGEST) != EMPTY && DigestIn(row, CYCLE_EVIDENCE_DIGEST) != EMPTY
    && PreconditionsOf(Subject(row, ACTION_FAMILY)) != {}
    && CP.FamilyOfChoice(Subject(row, REQUESTED_CHOICE)) == Some(Subject(row, ACTION_FAMILY))
    && ServiceStateFor(Subject(row, REVIEW_TYPE)).Some?
  }

  predicate WriterOk(row: Value, persisted: Value) {
    && Get(row, SCHEMA) == Text(ActionWriterSchema) && Get(row, STATE) == Text(ActionWriterAttested)
    && Get(row, WRITER_IDENTITY_VERIFIED) == Bool(true) && Get(row, WRITER_AUTHORITY_VERIFIED) == Bool(true)
    && Get(row, RECEIPT_BINDING_VERIFIED) == Bool(true) && Get(row, NONCE_REGISTERED) == Bool(true)
    && Get(row, CHECKPOINT_WRITE_PERFORMED) == Bool(false) && Get(row, ELIGIBLE_FOR_EXECUTION_PREFLIGHT) == Bool(true)
    && NoAuthority(row)
    && (forall k: Key | CUSTOMER_ID <= k <= ACTION_FAMILY :: DigestIn(row, k) == Subject(persisted, k))
    && DigestIn(row, AUTHORIZATION_DECISION) == Text(AuthorizeAction)
    && DigestIn(row, RECEIPT_DIGEST) == DigestIn(persisted, RECEIPT_DIGEST)
    && DigestIn(row, AFTER_CHECKPOINT_DIGEST) == DigestIn(persisted, AFTER_CHECKPOINT_DIGEST)
    && DigestIn(row, ACTION_RECORD_DIGEST) == DigestIn(persisted, ACTION_RECORD_DIGEST)
  }

  predicate OriginalOk(row: Value, persisted: Value, trusted: ScopeTriple) {
    && Get(row, SCHEMA) == Text(AuthorizationPreflightSchema)
    && Get(row, STATE) == Text(ReadyForAuthorizationCeremony) && !Truthy(Get(row, BLOCKERS))
    && ScopeOf(Get(row, SCOPE)) == trusted
    && (forall k: Key | IsIdentity(k) :: Subject(row, k) == Subject(persisted, k))
    && DigestIn(row, PREFLIGHT_DIGEST) == DigestIn(persisted, AUTHORIZATION_PREFLIGHT_DIGEST)
    && Get(row, ACTION_CEREMONY_ELIGIBLE) == Bool(true) && Get(row, FRESH_RECHECK_BEFORE_CEREMONY) == Bool(true)
    && Get(row, ACTION_REQUEST_ISSUED) == Bool(false) && Get(row, OWNER_ACTION_SIGNATURE_VERIFIED) == Bool(false)
    && NoAuthority(row)
  }

  // -------------------------------------------------------------- the environment

  predicate IsRequiredTrue(k: Key) { TENANT_ISOLATION_READY <= k <= DRY_RUN_VALIDATION_PASS }

  predicate IsRequiredFalse(k: Key) {
    SCOPE_BREACH <= k <= UNRESOLVED_BILLING_DISPUTE || SECURITY_INCIDENT <= k <= CONTRACT_CONFLICT
  }

  predicate IsEnvironmentDigest(k: Key) {
    k == ACTION_PARAMETERS_DIGEST || SERVICE_HEALTH_DIGEST <= k <= CUSTOMER_SAFE_PROJECTION_DIGEST
  }

  function Number(v: Value): Option<real> {
    match v case Int(n) => Some(n as real) case Real(r) => Some(r) case _ => None
  }

  /** The distinct texts among the first 80 references. */
  function RefsOf(v: Value): seq<Value> {
    if !v.List? then [] else DistinctTexts(if |v.items| <= 80 then v.items else v.items[..80], 320)
  }

  predicate FreshEnough(checkedAt: Value, now: Value) {
    checkedAt.Stamp? && now.Stamp? && -FUTURE_TOLERANCE <= now.us - checkedAt.us <= MAX_ENVIRONMENT_AGE
  }

  predicate CapacityOk(row: Value) {
    var reserved, available := Get(row, RESERVED_CAPACITY_UNITS), Get(row, AVAILABLE_CAPACITY_UNITS);
    var planned := Number(Get(row, PLANNED_MONTHLY_INFRA));
    && reserved.Int? && available.Int? && 1 <= reserved.n <= available.n
    && planned.Some? && 0.0 <= planned.value <= MAX_MONTHLY_INFRA
  }

  predicate EnvironmentOk(row: Value, persisted: Value, trusted: ScopeTriple, now: Value) {
    && Get(row, SCHEMA) == Text(ExecutionEnvironmentSchema) && Get(row, STATE) == Text(VerifiedState)
    && ScopeOf(row) == trusted
    && (forall k: Key | IsIdentity(k) :: Subject(row, k) == Subject(persisted, k))
    && Get(row, EXECUTION_MODE) == Text(ControlledMode) && Get(row, ACTION_WINDOW_RESERVED) == Bool(true)
    && Get(row, SCOPE_EXPANSION_ALLOWED) == Bool(false)
    && DigestIn(row, CONTRACT_DIGEST) == DigestIn(persisted, CONTRACT_DIGEST)
    && DigestIn(row, CYCLE_EVIDENCE_DIGEST) == DigestIn(persisted, CYCLE_EVIDENCE_DIGEST)
    && Some(TextOf(Get(row, SERVICE_STATE), 120)) == ServiceStateFor(Subject(persisted, REVIEW_TYPE))
    && (forall k: Key | IsRequiredTrue(k) :: Get(row, k) == Bool(true))
    && (forall k: Key | IsRequiredFalse(k) :: Get(row, k) == Bool(false))
    && (forall k: Key | IsEnvironmentDigest(k) :: Get(row, k).Sha?)
    && (forall k | k in PreconditionsOf(Subject(persisted, ACTION_FAMILY)) ::
          Get(Get(row, ACTION_PRECONDITIONS), k) == Bool(true))
    && CapacityOk(row) && |RefsOf(Get(row, EVIDENCE_REFS))| >= 8 && FreshEnough(Get(row, CHECKED_AT), now)
  }

  // ------------------------------------------------------------------- the verdict

  function ScopeField(trusted: ScopeTriple, k: Key): Value {
    if k == OWNER_ID then trusted.owner else if k == TENANT_ID then trusted.tenant else trusted.workspace
  }

  predicate InMaterial(k: Key) {
    || k == SERVICE_STATE || EXECUTION_MODE <= k <= CHECKED_AT || k == CONTRACT_DIGEST || k == CYCLE_EVIDENCE_DIGEST
    || IsRequiredTrue(k) || IsRequiredFalse(k) || IsEnvironmentDigest(k)
  }

  /** What the environment digest covers. */
  function EnvironmentDigest(trusted: ScopeTriple, row: Value, persisted: Value): Value {
    var needed := PreconditionsOf(Subject(persisted, ACTION_FAMILY));
    Sha(List([Dict(map f: Key | OWNER_ID <= f <= WORKSPACE_ID :: ScopeField(trusted, f)),
              Dict(map f: Key | IsIdentity(f) :: Subject(persisted, f)), Dict(map k: Key | InMaterial(k) :: Get(row, k)),
              Dict(map k: Key | k in needed :: Get(Get(row, ACTION_PRECONDITIONS), k)),
              List(RefsOf(Get(row, EVIDENCE_REFS)))]))
  }

  predicate InPreflight(k: Key) {
    || SCHEMA <= k <= SCOPE || OWNER_ID <= k <= REVIEW_TYPE || IsPreflightDigest(k)
    || COMMAND_GENERATED <= k <= OWNER_SIGNATURE_VERIFIED || CEREMONY_ELIGIBLE <= k <= CUSTOMER_VISIBLE
    || IsAuthority(k)
  }

  /** The digests that a READY verdict carries. */
  function CarriedDigest(trusted: ScopeTriple, persisted: Value, writer: Value, row: Value, k: Key): Value {
    if k == ACTION_RECORD_DIGEST then DigestIn(persisted, ACTION_RECORD_DIGEST)
    else if k == ACTION_RECEIPT_DIGEST then DigestIn(persisted, RECEIPT_DIGEST)
    else if k == ACTION_CHECKPOINT_DIGEST then DigestIn(persisted, AFTER_CHECKPOINT_DIGEST)
    else if k == ACTION_WRITER_REQUEST_DIGEST then DigestIn(writer, WRITER_REQUEST_DIGEST)
    else if k == AUTHORIZATION_PREFLIGHT_DIGEST then DigestIn(persisted, AUTHORIZATION_PREFLIGHT_DIGEST)
    else if k == ACTION_PARAMETERS_DIGEST then Get(row, ACTION_PARAMETERS_DIGEST)
    else EnvironmentDigest(trusted, row, persisted)
  }

  function PreflightField(
    trusted: ScopeTriple, persisted: Value, writer: Value, row: Value, k: Key): Value
  {
    if k == CUSTOMER_VISIBLE || IsAuthority(k) then Bool(false)
    else if CEREMONY_ELIGIBLE <= k then Bool(true)
    else if COMMAND_GENERATED <= k then Bool(false)
    else if k == EXECUTION_PREFLIGHT_DIGEST then
      Sha(List([Dict(map f: Key | OWNER_ID <= f <= WORKSPACE_ID :: ScopeField(trusted, f)),
                Dict(map f: Key | IsIdentity(f) :: Subject(persisted, f)),
                Dict(map f: Key | ACTION_RECORD_DIGEST <= f <= EXECUTION_ENVIRONMENT_DIGEST ::
                       CarriedDigest(trusted, persisted, writer, row, f))]))
    else if ACTION_RECORD_DIGEST <= k then CarriedDigest(trusted, persisted, writer, row, k)
    else if CUSTOMER_ID <= k then Subject(persisted, k)
    else if OWNER_ID <= k then ScopeField(trusted, k)
    else if k == SCOPE then Dict(map f: Key | OWNER_ID <= f <= WORKSPACE_ID :: ScopeField(trusted, f))
    else if k == BLOCKERS then List([])
    else if k == STATE then Text(ReadyForCeremony)
    else Text(PreflightSchema)
  }

  function Verdict(trusted: ScopeTriple, persisted: Value, writer: Value, row: Value): Value {
    Dict(map k: Key | InPreflight(k) :: PreflightField(trusted, persisted, writer, row, k))
  }

  /** `evaluate_owner_renewal_action_execution_preflight`: the READY verdict, or nothing. */
  function Evaluate(
    trustedScope: Value, persisted: Value, writer: Value, original: Value, row: Value, now: Value): Option<Value>
  {
    var trusted := ScopeOf(trustedScope);
    if Complete(trusted) && PersistedOk(persisted, trusted) && WriterOk(writer, persisted)
       && OriginalOk(original, persisted, trusted) && EnvironmentOk(row, persisted, trusted, now) then
      Some(Verdict(trusted, persisted, writer, row))
    else None
  }

  // --------------------------------------------- what the ceremony makes of it

  lemma {:induction false} VerdictConstants(trusted: ScopeTriple, persisted: Value, writer: Value, row: Value)
    ensures var r := Verdict(trusted, persisted, writer, row);
            && Get(r, SCHEMA) == Text(PreflightSchema) && Get(r, STATE) == Text(ReadyForCeremony)
            && Get(r, BLOCKERS) == List([]) && Get(r, CEREMONY_ELIGIBLE) == Bool(true)
            && Get(r, HUMAN_CONFIRMATION_REQUIRED) == Bool(true) && Get(r, CUSTOMER_VISIBLE) == Bool(false)
  {
  }

  lemma {:induction false} VerdictIsFilled(
    trusted: ScopeTriple, persisted: Value, writer: Value, row: Value, field: Key -> Value)
    requires field == (k => PreflightField(trusted, persisted, writer, row, k))
    ensures var r := Verdict(trusted, persisted, writer, row);
            && r.Dict? && (forall k: Key :: k in r.fields <==> InPreflight(k))
            && forall k: Key | InPreflight(k) :: r.fields[k] == Get(r, k) == field(k)
  {
  }

  lemma {:induction false} VerdictFlag(trusted: ScopeTriple, persisted: Value, writer: Value, row: Value, k: Key)
    requires EC.IsPreflightFalse(k)
    ensures Get(Verdict(trusted, persisted, writer, row), k) == Bool(false)
  {
    var field := (f: Key) => PreflightField(trusted, persisted, writer, row, f);
    FlagField(trusted, persisted, writer, row, k);
    VerdictIsFilled(trusted, persisted, writer, row, field);
    FlagIsPresent(k);
    assert Get(Verdict(trusted, persisted, writer, row), k) == field(k);
  }

  lemma {:induction false} FlagIsPresent(k: Key)
    requires EC.IsPreflightFalse(k)
    ensures InPreflight(k)
  {
  }

  lemma {:induction false} FlagField(trusted: ScopeTriple, persisted: Value, writer: Value, row: Value, k: Key)
    requires EC.IsPreflightFalse(k)
    ensures PreflightField(trusted, persisted, writer, row, k) == Bool(false)
  {
  }

  lemma {:induction false} VerdictSubject(trusted: ScopeTriple, persisted: Value, writer: Value, row: Value)
    ensures var r := Verdict(trusted, persisted, writer, row);
            && (forall k: Key | IsIdentity(k) :: Get(r, k) == Subject(persisted, k))
            && (forall k: Key | IsScopeField(k) :: Get(r, k) == Get(Get(r, SCOPE), k) == ScopeField(trusted, k))
  {
  }

  lemma {:induction false} VerdictDigest(
    trusted: ScopeTriple, persisted: Value, writer: Value, row: Value, k: Key)
    requires IsPreflightDigest(k)
    ensures var d := Get(Verdict(trusted, persisted, writer, row), k);
            if k == EXECUTION_PREFLIGHT_DIGEST then d.Sha? else d == CarriedDigest(trusted, persisted, writer, row, k)
  {
  }

  /** The five digests that the preflight takes over unchecked have the digest form. */
  predicate DigestsInForm(persisted: Value, writer: Value) {
    && Get(persisted, ACTION_RECORD_DIGEST).Sha? && Get(persisted, RECEIPT_DIGEST).Sha?
    && Get(persisted, AFTER_CHECKPOINT_DIGEST).Sha? && Get(persisted, AUTHORIZATION_PREFLIGHT_DIGEST).Sha?
    && Get(writer, WRITER_REQUEST_DIGEST).Sha?
  }

  lemma {:induction false} CarriedForm(trusted: ScopeTriple, persisted: Value, writer: Value, row: Value, k: Key)
    requires Get(row, ACTION_PARAMETERS_DIGEST).Sha? && DigestsInForm(persisted, writer)
    requires ACTION_RECORD_DIGEST <= k <= EXECUTION_ENVIRONMENT_DIGEST
    ensures CarriedDigest(trusted, persisted, writer, row, k).Sha?
  {
  }

  lemma {:induction false} CarriedSources(trusted: ScopeTriple, persisted: Value, writer: Value, row: Value)
    requires forall k: Key | ACTION_RECORD_DIGEST <= k <= EXECUTION_ENVIRONMENT_DIGEST ::
               CarriedDigest(trusted, persisted, writer, row, k).Sha?
    ensures DigestsInForm(persisted, writer)
  {
    assert CarriedDigest(trusted, persisted, writer, row, ACTION_RECORD_DIGEST).Sha?;
    assert CarriedDigest(trusted, persisted, writer, row, ACTION_RECEIPT_DIGEST).Sha?;
    assert CarriedDigest(trusted, persisted, writer, row, ACTION_CHECKPOINT_DIGEST).Sha?;
    assert CarriedDigest(trusted, persisted, writer, row, ACTION_WRITER_REQUEST_DIGEST).Sha?;
    assert CarriedDigest(trusted, persisted, writer, row, AUTHORIZATION_PREFLIGHT_DIGEST).Sha?;
  }

  lemma {:induction false} FormedDigests(
    trusted: ScopeTriple, persisted: Value, writer: Value, row: Value)
    requires Get(row, ACTION_PARAMETERS_DIGEST).Sha?
    ensures (forall k: Key | IsPreflightDigest(k) :: Get(Verdict(trusted, persisted, writer, row), k).Sha?) <==>
            DigestsInForm(persisted, writer)
  {
    var r := Verdict(trusted, persisted, writer, row);
    forall k: Key | IsPreflightDigest(k)
      ensures k == EXECUTION_PREFLIGHT_DIGEST ==> Get(r, k).Sha?
      ensures k != EXECUTION_PREFLIGHT_DIGEST ==> Get(r, k) == CarriedDigest(trusted, persisted, writer, row, k)
    {
      VerdictDigest(trusted, persisted, writer, row, k);
    }
    if DigestsInForm(persisted, writer) {
      forall k: Key | IsPreflightDigest(k)
        ensures Get(r, k).Sha?
      {
        if k != EXECUTION_PREFLIGHT_DIGEST { CarriedForm(trusted, persisted, writer, row, k); }
      }
    } else if forall k: Key | IsPreflightDigest(k) :: Get(r, k).Sha? {
      CarriedSources(trusted, persisted, writer, row);
    }
  }

  lemma {:induction false} SubjectAgain(persisted: Value, k: Key, again: nat)
    requires Subject(persisted, k) != EMPTY && again > 0
    ensures !Blank(Subject(persisted, k), again)
  {
    var v := Get(persisted, k);
    if v.Str? {
      if k == PACKAGE { T.UpperTextAgain(v.s, 40, again); } else { T.TextAgain(v.s, 120, again); }
    }
  }

  lemma {:induction false} ScopeAgain(row: Value)
    requires Complete(ScopeOf(row))
    ensures forall k: Key | IsScopeField(k) :: !Blank(ScopeField(ScopeOf(row), k), 120)
  {
    if Get(row, OWNER_ID).Str? { T.TextAgain(Get(row, OWNER_ID).s, 120, 120); }
    if Get(row, TENANT_ID).Str? { T.TextAgain(Get(row, TENANT_ID).s, 120, 120); }
    if Get(row, WORKSPACE_ID).Str? { T.TextAgain(Get(row, WORKSPACE_ID).s, 120, 120); }
  }

  lemma {:induction false} VerdictScope(trustedScope: Value, persisted: Value, writer: Value, row: Value)
    requires Complete(ScopeOf(trustedScope))
    ensures var r := Verdict(ScopeOf(trustedScope), persisted, writer, row);
            Complete(ScopeOf(Get(r, SCOPE))) && ScopeOf(r) == ScopeOf(Get(r, SCOPE))
  {
    var trusted := ScopeOf(trustedScope);
    var r := Verdict(trusted, persisted, writer, row);
    VerdictSubject(trusted, persisted, writer, row);
    ScopeAgain(trustedScope);
    assert IsScopeField(OWNER_ID) && IsScopeField(TENANT_ID) && IsScopeField(WORKSPACE_ID);
    assert !Blank(ScopeField(trusted, OWNER_ID), 120) && !Blank(ScopeField(trusted, TENANT_ID), 120);
    assert !Blank(ScopeField(trusted, WORKSPACE_ID), 120);
  }

  lemma {:induction false} VerdictIdentity(trusted: ScopeTriple, persisted: Value, writer: Value, row: Value)
    requires forall k: Key | IsIdentity(k) :: Subject(persisted, k) != EMPTY
    ensures forall k: Key | IsIdentity(k) :: !Blank(Get(Verdict(trusted, persisted, writer, row), k), 120)
  {
    VerdictSubject(trusted, persisted, writer, row);
    forall k: Key | IsIdentity(k)
      ensures !Blank(Subject(persisted, k), 120)
    {
      SubjectAgain(persisted, k, 120);
    }
  }

  /** A READY preflight is one that the ceremony takes exactly when the five digests that
      the preflight only checks for presence have the digest form. */
  lemma {:induction false} ReadyIsTakenIff(
    trustedScope: Value, persisted: Value, writer: Value, original: Value, row: Value, now: Value)
    requires Evaluate(trustedScope, persisted, writer, original, row, now).Some?
    ensures EC.PreflightOk(Evaluate(trustedScope, persisted, writer, original, row, now).value) <==>
            DigestsInForm(persisted, writer)
  {
    var trusted := ScopeOf(trustedScope);
    ReadyFacts(trustedScope, persisted, writer, original, row, now);
    VerdictConstants(trusted, persisted, writer, row);
    VerdictScope(trustedScope, persisted, writer, row);
    VerdictIdentity(trusted, persisted, writer, row);
    FormedDigests(trusted, persisted, writer, row);
    VerdictFlags(trusted, persisted, writer, row);
    TakenIff(Verdict(trusted, persisted, writer, row));
  }

  lemma {:induction false} ReadyFacts(
    trustedScope: Value, persisted: Value, writer: Value, original: Value, row: Value, now: Value)
    requires Evaluate(trustedScope, persisted, writer, original, row, now).Some?
    ensures Evaluate(trustedScope, persisted, writer, original, row, now)
         == Some(Verdict(ScopeOf(trustedScope), persisted, writer, row))
    ensures Complete(ScopeOf(trustedScope)) && Get(row, ACTION_PARAMETERS_DIGEST).Sha?
    ensures forall k: Key | IsIdentity(k) :: Subject(persisted, k) != EMPTY
  {
    assert IsEnvironmentDigest(ACTION_PARAMETERS_DIGEST);
  }

  lemma {:induction false} VerdictFlags(trusted: ScopeTriple, persisted: Value, writer: Value, row: Value)
    ensures forall k: Key | EC.IsPreflightFalse(k) :: Get(Verdict(trusted, persisted, writer, row), k) == Bool(false)
  {
    forall k: Key | EC.IsPreflightFalse(k)
      ensures Get(Verdict(trusted, persisted, writer, row), k) == Bool(false)
    {
      VerdictFlag(trusted, persisted, writer, row, k);
    }
  }

  /** A preflight in order but for its digests is usable exactly when they are in form. */
  lemma {:induction false} TakenIff(r: Value)
    requires forall k: Key | EC.IsPreflightFalse(k) :: Get(r, k) == Bool(false)
    requires Get(r, SCHEMA) == Text(PreflightSchema) && Get(r, STATE) == Text(ReadyForCeremony)
    requires Get(r, BLOCKERS) == List([]) && Get(r, CEREMONY_ELIGIBLE) == Bool(true)
    requires Get(r, HUMAN_CONFIRMATION_REQUIRED) == Bool(true) && Get(r, CUSTOMER_VISIBLE) == Bool(false)
    requires Complete(ScopeOf(Get(r, SCOPE))) && ScopeOf(r) == ScopeOf(Get(r, SCOPE))
    requires forall k: Key | IsIdentity(k) :: !Blank(Get(r, k), 120)
    ensures EC.PreflightOk(r) <==> forall k: Key | IsPreflightDigest(k) :: Get(r, k).Sha?
  {
  }

  /** And it starts an honest run exactly when, besides, its identities are fixed. */
  lemma {:induction false} ReadyIsCleanIff(
    trustedScope: Value, persisted: Value, writer: Value, original: Value, row: Value, now: Value)
    requires Evaluate(trustedScope, persisted, writer, original, row, now).Some?
    ensures var r := Evaluate(trustedScope, persisted, writer, original, row, now).value;
            HP.CleanPreflight(r) <==> DigestsInForm(persisted, writer) && HP.FixedSubject(r)
  {
    ReadyIsTakenIff(trustedScope, persisted, writer, original, row, now);
    ReadyFacts(trustedScope, persisted, writer, original, row, now);
    VerdictSubject(ScopeOf(trustedScope), persisted, writer, row);
  }
}
