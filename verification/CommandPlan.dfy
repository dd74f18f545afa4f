/** The abstract command plan: V1 joins the persistence attestation, the writer's
    attestation and the execution preflight; V2 first refuses every identity that V1 would
    have normalised. */
module CommandPlan {
  import opened Wrappers
  import opened Records
  import opened InputGuard
  import T = Texts

  /** `ACTION_OPERATION_KIND`. */
  function OperationKind(family: Value): Option<Word> {
    if !family.Text? then None
    else
      match family.word
      case Renewal => Some(ContractContinuity)
      case RenewalWithChanges => Some(ContractChange)
      case NonRenewal => Some(ServiceOffboarding)
      case Remediation => Some(ServiceRemediation)
      case CapacityRescope => Some(CapacityChange)
      case Repricing => Some(CommercialPricingChange)
      case IncidentRemediation => Some(IncidentRemediation)
      case ServicePause => Some(ServicePause)
      case ServiceTermination => Some(ServiceTermination)
      case _ => None
  }

  /** The family that each requested choice stands for. */
  function FamilyOfChoice(choice: Value): Option<Value> {
    if !choice.Text? then None
    else
      match choice.word
      case RenewAsIsReview => Some(Text(Renewal))
      case RenewWithChangesReview => Some(Text(RenewalWithChanges))
      case NonRenewalReview => Some(Text(NonRenewal))
      case RemediationPlanReview => Some(Text(Remediation))
      case RescopeCapacityReview => Some(Text(CapacityRescope))
      case RepriceReview => Some(Text(Repricing))
      case IncidentRemediationReview => Some(Text(IncidentRemediation))
      case PauseServiceReview => Some(Text(ServicePause))
      case TerminationReview => Some(Text(ServiceTermination))
      case _ => None
  }

  /** `str.upper`; the program's own words are upper-case already. */
  function UpperOf(v: Value): Value { if v.Str? then Str(T.Upper(v.s)) else v }

  /** One identity field as V1 reads it. */
  function IdentityText(row: Value, k: Key, packageLimit: nat): Value {
    if k == PACKAGE then UpperOf(TextOf(Get(row, PACKAGE), packageLimit)) else TextOf(Get(row, k), 120)
  }

  // ------------------------------------------------------------------ the V1 checks

  predicate PersistedOk(row: Value, trusted: ScopeTriple) {
    && Get(row, SCHEMA) == Text(AttestationSchema) && Get(row, STATE) == Text(PersistenceAttestedState)
    && Get(row, EXECUTION_DECISION) == Text(Authorize)
    && Get(row, RECORD_PERSISTED) == Bool(true) && Get(row, PERSISTENCE_ATTESTED) == Bool(true)
    && Get(row, RECEIPT_CONSISTENCY_VERIFIED) == Bool(true) && Get(row, WRITER_IDENTITY_VERIFIED) == Bool(false)
    && Get(row, ELIGIBLE_FOR_COMMAND_PLANNING) == Bool(true) && Get(row, STORAGE_WRITE_PERFORMED) == Bool(false)
    && Get(row, COMMAND_GENERATED) == Bool(false) && Get(row, COMMAND_EXECUTED) == Bool(false)
    && ScopeOf(Get(row, SCOPE)) == trusted && ScopeOf(row) == trusted && NoAuthority(row)
    && (forall k: Key | IsIdentity(k) :: IdentityText(row, k, 40) != EMPTY)
    && OperationKind(IdentityText(row, ACTION_FAMILY, 40)).Some?
  }

  predicate WriterOk(row: Value, persisted: Value) {
    && Get(row, SCHEMA) == Text(WriterResultSchema) && Get(row, STATE) == Text(WriterAttestedState)
    && Get(row, WRITER_IDENTITY_VERIFIED) == Bool(true) && Get(row, WRITER_AUTHORITY_VERIFIED) == Bool(true)
    && Get(row, RECEIPT_BINDING_VERIFIED) == Bool(true) && Get(row, NONCE_REGISTERED) == Bool(true)
    && Get(row, CHECKPOINT_WRITE_PERFORMED) == Bool(false) && Get(row, ELIGIBLE_FOR_COMMAND_PLANNING) == Bool(true)
    && Get(row, COMMAND_GENERATED) == Bool(false) && Get(row, COMMAND_EXECUTED) == Bool(false) && NoAuthority(row)
    && (forall k: Key | CUSTOMER_ID <= k <= ACTION_FAMILY :: TextOf(Get(row, k), 180) == IdentityText(persisted, k, 40))
    && TextOf(Get(row, EXECUTION_DECISION), 180) == Text(Authorize)
    && TextOf(Get(row, RECEIPT_DIGEST), 180) == TextOf(Get(persisted, RECEIPT_DIGEST), 180)
    && TextOf(Get(row, AFTER_CHECKPOINT_DIGEST), 180) == TextOf(Get(persisted, AFTER_CHECKPOINT_DIGEST), 180)
    && TextOf(Get(row, EXECUTION_RECORD_DIGEST), 180) == TextOf(Get(persisted, EXECUTION_RECORD_DIGEST), 180)
    && Get(row, WRITER_REQUEST_DIGEST).Sha?
  }

  predicate PreflightMatches(row: Value, persisted: Value, trusted: ScopeTriple) {
    && Get(row, SCHEMA) == Text(PreflightSchema) && Get(row, STATE) == Text(ReadyForCeremony)
    && !Truthy(Get(row, BLOCKERS))
    && Get(row, CEREMONY_ELIGIBLE) == Bool(true) && Get(row, HUMAN_CONFIRMATION_REQUIRED) == Bool(true)
    && Get(row, CUSTOMER_VISIBLE) == Bool(false)
    && ScopeOf(Get(row, SCOPE)) == trusted && ScopeOf(row) == trusted
    && (forall k: Key | COMMAND_GENERATED <= k <= OWNER_SIGNATURE_VERIFIED :: Get(row, k) == Bool(false))
    && NoAuthority(row)
    && (forall k: Key | IsIdentity(k) :: IdentityText(row, k, 120) == IdentityText(persisted, k, 40))
    && (forall k: Key | IsPreflightDigest(k) :: Get(persisted, k).Sha? && Get(row, k) == Get(persisted, k))
  }

  function ScopeDict(scope: ScopeTriple): Value {
    Dict(map[OWNER_ID := scope.owner, TENANT_ID := scope.tenant, WORKSPACE_ID := scope.workspace])
  }

  predicate InV1Plan(k: Key) {
    || k == SCOPE || IsIdentity(k) || k == ACTION_PARAMETERS_DIGEST || k == EXECUTION_PREFLIGHT_DIGEST
    || k == EXECUTION_RECORD_DIGEST || k == COMMAND_GENERATED || k == COMMAND_EXECUTED
    || OPERATION_KIND <= k <= INTENT_WRITER_REQUEST_DIGEST
    || PROVIDER_OPERATION_MATERIALIZED <= k <= SHELL_COMMAND_GENERATED
  }

  function V1PlanField(trusted: ScopeTriple, persisted: Value, writer: Value, k: Key): Value {
    if PROVIDER_OPERATION_MATERIALIZED <= k then Bool(false)
    else if k == INTENT_WRITER_REQUEST_DIGEST then TextOf(Get(writer, WRITER_REQUEST_DIGEST), 180)
    else if k == TARGET_DOMAIN then Text(ManagedService)
    else if k == OPERATION_KIND then
      var kind := OperationKind(IdentityText(persisted, ACTION_FAMILY, 40));
      if kind.Some? then Text(kind.value) else EMPTY
    else if COMMAND_GENERATED <= k then Bool(false)
    else if ACTION_RECORD_DIGEST <= k then Get(persisted, k)
    else if CUSTOMER_ID <= k then IdentityText(persisted, k, 40)
    else ScopeDict(trusted)
  }

  function V1Plan(trusted: ScopeTriple, persisted: Value, writer: Value): Value {
    Dict(map k: Key | InV1Plan(k) :: V1PlanField(trusted, persisted, writer, k))
  }

  /** `build_owner_renewal_action_command_plan`: the frozen plan itself, or nothing when any
      blocker is found. */
  function BuildV1(trusted: ScopeTriple, persisted: Value, writer: Value, preflight: Value): Option<Value> {
    if Complete(trusted) && PersistedOk(persisted, trusted) && WriterOk(writer, persisted)
       && PreflightMatches(preflight, persisted, trusted) then
      Some(V1Plan(trusted, persisted, writer))
    else None
  }

  // ------------------------------------------------------------------ the V2 guard

  /** `_identity(value, limit)`. */
  function IdentityOf(v: Value, limit: nat): Value {
    match v
    case Str(s) => Str(T.Identity(s, limit))
    case Text(_) | Stamp(_, _) | Sha(_) | DerivedId(_) => v
    case _ => EMPTY
  }

  function StrictScope(row: Value): ScopeTriple {
    ScopeTriple(IdentityOf(Get(row, OWNER_ID), 120), IdentityOf(Get(row, TENANT_ID), 120),
                IdentityOf(Get(row, WORKSPACE_ID), 120))
  }

  function IdentityLimit(k: Key): nat { if k == PACKAGE then 40 else 120 }

  predicate GuardOk(persisted: Value, writer: Value, preflight: Value) {
    var trusted := StrictScope(Get(persisted, SCOPE));
    && Complete(trusted) && StrictScope(persisted) == trusted
    && StrictScope(Get(preflight, SCOPE)) == trusted && StrictScope(preflight) == trusted
    && (forall k: Key | IsIdentity(k) ::
          && IdentityOf(Get(persisted, k), IdentityLimit(k)) != EMPTY
          && IdentityOf(Get(preflight, k), IdentityLimit(k)) == IdentityOf(Get(persisted, k), IdentityLimit(k)))
    && (forall k: Key | CUSTOMER_ID <= k <= ACTION_FAMILY ::
          IdentityOf(Get(writer, k), 120) == IdentityOf(Get(persisted, k), 120))
    && Get(persisted, EXECUTION_REQUEST_DIGEST).Sha?
    && OperationKind(IdentityOf(Get(persisted, ACTION_FAMILY), 120)).Some?
  }

  /** The V2 plan adds where its parts come from. */
  function V2Plan(v1: Value, persisted: Value): Value {
    if v1.Dict? then
      Dict(v1.fields[SCOPE_SOURCE := Text(PersistedExecutionRecord)]
                    [OPERATION_KIND_SOURCE := Text(DerivedFromActionFamily)]
                    [EXECUTION_REQUEST_DIGEST := Get(persisted, EXECUTION_REQUEST_DIGEST)])
    else v1
  }

  predicate InV2Result(k: Key) {
    || SCHEMA <= k <= SCOPE || IsIdentity(k) || k == EXECUTION_REQUEST_DIGEST
    || k == COMMAND_GENERATED || k == COMMAND_EXECUTED || k == OPERATION_KIND
    || COMMAND_PLAN <= k <= RED_TEAM_HARDENING || ADAPTER_REVIEW_REQUIRED <= k <= FRESH_RECHECK_REQUIRED
    || PROVIDER_OPERATION_MATERIALIZED <= k <= SHELL_COMMAND_GENERATED || IsAuthority(k)
  }

  /** What V2 hardens, as recorded in its result. */
  function Hardening(): Value {
    Dict(map[TRUSTED_SCOPE_REMOVED := Bool(true), TRUNCATION_REJECTED := Bool(true),
             OPERATION_KIND_DERIVED := Bool(true)])
  }

  function V2ResultField(v1: Value, persisted: Value, k: Key): Value {
    if PROVIDER_OPERATION_MATERIALIZED <= k then Bool(false)
    else if ADAPTER_REVIEW_REQUIRED <= k then Bool(true)
    else if k == RED_TEAM_HARDENING then Hardening()
    else if k == OPERATION_KIND_SOURCE then Text(DerivedFromActionFamily)
    else if k == SCOPE_SOURCE then Text(PersistedExecutionRecord)
    else if k == COMMAND_PLAN_V1_DIGEST then Sha(v1)
    else if k == COMMAND_PLAN_DIGEST then Sha(V2Plan(v1, persisted))
    else if k == COMMAND_PLAN then V2Plan(v1, persisted)
    else if k == OPERATION_KIND then Get(v1, OPERATION_KIND)
    else if COMMAND_GENERATED <= k then Bool(false)
    else if k == EXECUTION_REQUEST_DIGEST then Get(persisted, EXECUTION_REQUEST_DIGEST)
    else if SCOPE <= k then Get(v1, k)
    else if k == BLOCKERS then List([])
    else if k == STATE then Text(ReadyForAdapterReview)
    else Text(CommandPlanV2Schema)
  }

  function V2Result(v1: Value, persisted: Value): Value {
    Dict(map k: Key | InV2Result(k) :: V2ResultField(v1, persisted, k))
  }

  /** `build_owner_renewal_action_command_plan_v2`. */
  function BuildV2(persisted: Value, writer: Value, preflight: Value): Option<Value> {
    if !SafeInput(List([persisted, writer, preflight])) then None
    else if !persisted.Dict? || !writer.Dict? || !preflight.Dict? then None
    else if !GuardOk(persisted, writer, preflight) then None
    else
      var v1 := BuildV1(StrictScope(Get(persisted, SCOPE)), persisted, writer, preflight);
      if v1.None? then None
      else if OperationKind(IdentityOf(Get(persisted, ACTION_FAMILY), 120))
           != OperationKind(IdentityText(persisted, ACTION_FAMILY, 40)) then None
      else Some(V2Result(v1.value, persisted))
  }

  // ------------------------------------------------------------ what the guard buys

  /** The guard keeps exactly the values that V1's normalisation leaves alone. */
  lemma {:induction false} GuardKeepsFixedTexts(v: Value, limit: nat)
    ensures IdentityOf(v, limit) == if Fixed(v, limit) then v else EMPTY
  {
    if v.Str? { T.IdentityIsTextFixpoint(v.s, limit); }
  }

  lemma {:induction false} V1PlanIdentities(trusted: ScopeTriple, persisted: Value, writer: Value)
    ensures forall k: Key | IsIdentity(k) ::
              Get(V1Plan(trusted, persisted, writer), k) == IdentityText(persisted, k, 40)
  {
  }

  lemma {:induction false} V1PlanDigests(trusted: ScopeTriple, persisted: Value, writer: Value)
    ensures var plan := V1Plan(trusted, persisted, writer);
            && Get(plan, ACTION_PARAMETERS_DIGEST) == Get(persisted, ACTION_PARAMETERS_DIGEST)
            && Get(plan, EXECUTION_PREFLIGHT_DIGEST) == Get(persisted, EXECUTION_PREFLIGHT_DIGEST)
            && Get(plan, EXECUTION_RECORD_DIGEST) == Get(persisted, EXECUTION_RECORD_DIGEST)
            && Get(plan, INTENT_WRITER_REQUEST_DIGEST) == TextOf(Get(writer, WRITER_REQUEST_DIGEST), 180)
  {
  }

  lemma {:induction false} V2ResultFields(v1: Value, persisted: Value)
    requires v1.Dict?
    ensures var plan := Get(V2Result(v1, persisted), COMMAND_PLAN);
            && plan == V2Plan(v1, persisted)
            && Get(plan, EXECUTION_REQUEST_DIGEST) == Get(persisted, EXECUTION_REQUEST_DIGEST)
            && forall k: Key | k != SCOPE_SOURCE && k != OPERATION_KIND_SOURCE && k != EXECUTION_REQUEST_DIGEST ::
                 Get(plan, k) == Get(v1, k)
    ensures NoAuthority(V2Result(v1, persisted))
  {
  }

  lemma {:induction false} V2ResultProvenance(v1: Value, persisted: Value)
    ensures var out := V2Result(v1, persisted);
            && Get(out, COMMAND_PLAN_V1_DIGEST) == Sha(v1) && Get(out, RED_TEAM_HARDENING) == Hardening()
            && Get(out, COMMAND_PLAN_DIGEST) == Sha(V2Plan(v1, persisted))
  {
  }

  lemma {:induction false} GuardedIdentity(persisted: Value, k: Key)
    requires IsIdentity(k) && IdentityOf(Get(persisted, k), IdentityLimit(k)) != EMPTY
    ensures IdentityText(persisted, k, 40) == if k == PACKAGE then UpperOf(Get(persisted, k)) else Get(persisted, k)
    ensures Fixed(Get(persisted, k), IdentityLimit(k))
  {
    GuardKeepsFixedTexts(Get(persisted, k), IdentityLimit(k));
  }

  ghost predicate CarriesIdentities(plan: Value, persisted: Value) {
    forall k: Key | IsIdentity(k) ::
      Get(plan, k) == if k == PACKAGE then UpperOf(Get(persisted, k)) else Get(persisted, k)
  }

  lemma {:induction false} GuardedPlan(trusted: ScopeTriple, persisted: Value, writer: Value)
    requires forall k: Key | IsIdentity(k) :: IdentityOf(Get(persisted, k), IdentityLimit(k)) != EMPTY
    ensures CarriesIdentities(Get(V2Result(V1Plan(trusted, persisted, writer), persisted), COMMAND_PLAN), persisted)
  {
    var v1 := V1Plan(trusted, persisted, writer);
    V2ResultFields(v1, persisted);
    V1PlanIdentities(trusted, persisted, writer);
    forall k: Key | IsIdentity(k)
      ensures Get(v1, k) == if k == PACKAGE then UpperOf(Get(persisted, k)) else Get(persisted, k)
    {
      GuardedIdentity(persisted, k);
    }
  }

  lemma {:induction false} V2Steps(persisted: Value, writer: Value, preflight: Value)
    requires BuildV2(persisted, writer, preflight).Some?
    ensures var trusted := StrictScope(Get(persisted, SCOPE));
            && GuardOk(persisted, writer, preflight)
            && BuildV1(trusted, persisted, writer, preflight).Some?
            && BuildV2(persisted, writer, preflight).value == V2Result(V1Plan(trusted, persisted, writer), persisted)
  {
  }

  /** A plan accepted by V2 carries the persisted identities unchanged by V1's
      normalisation; only the package is upper-cased. */
  lemma {:induction false} V2CarriesRawIdentities(persisted: Value, writer: Value, preflight: Value)
    requires BuildV2(persisted, writer, preflight).Some?
    ensures CarriesIdentities(Get(BuildV2(persisted, writer, preflight).value, COMMAND_PLAN), persisted)
  {
    V2Steps(persisted, writer, preflight);
    GuardedPlan(StrictScope(Get(persisted, SCOPE)), persisted, writer);
  }
}
