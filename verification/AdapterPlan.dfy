/** The offline adapter plan V2: a rebuilt command plan bound to a fresh synthetic
    environment, and a validator that accepts only its own canonical form. */
module AdapterPlan {
  import opened Wrappers
  import opened Records
  import opened InputGuard
  import SS = SignedStep
  import CP = CommandPlan

  const MAX_WINDOW := 180_000_000
  const FINOPS_CAP := 20_000

  /** The 21 fields that every artifact of the adapter chain carries as false. */
  predicate IsAdapterFalse(k: Key) {
    || COMMAND_GENERATED <= k <= COMMAND_EXECUTED || PROVIDER_ENDPOINT_INCLUDED <= k <= SECRET_MATERIAL_INCLUDED
    || k == SHELL_COMMAND_GENERATED || k == BUSINESS_ACTION_AUTHORIZED || k == BILLING_AUTHORIZED
    || CUSTOMER_CONTACT_AUTHORIZED <= k <= EXECUTES_ACTION || k == PRODUCTION_MUTATION_PERFORMED
  }

  /** The short identifier pattern; the program's own words, digests and event ids match it. */
  predicate IsId(v: Value) { SS.IsToken(v, 1, 160) || v.Text? || v.Sha? || v.DerivedId? }

  // ------------------------------------------------------------------- the tables

  function CapabilitiesOf(family: Value): seq<Value> {
    if !family.Text? then []
    else
      match family.word
      case Renewal =>
        [Text(ContractContinuity), Text(ServiceContinuity), Text(BillingReviewBoundary), Text(CustomerNoticeBoundary)]
      case RenewalWithChanges =>
        [Text(ContractChange), Text(PackageScopeReview), Text(CapacityReview), Text(PricingBoundary)]
      case NonRenewal =>
        [Text(OffboardingPlan), Text(CustomerNoticeBoundary), Text(DataRetention), Text(AccessLifecyclePlan),
         Text(ArchiveExportBoundary)]
      case Remediation => [Text(ServiceRemediationPlan), Text(ServiceHealthRecheck), Text(RemediationReversal)]
      case CapacityRescope =>
        [Text(CapacityPlan), Text(QuotaBoundary), Text(FinopsValidation), Text(ServiceHealthRecheck)]
      case Repricing =>
        [Text(CommercialPricingPlan), Text(ContractAmendmentBoundary), Text(OwnerOnlyApprovalBoundary)]
      case IncidentRemediation =>
        [Text(IncidentContainmentPlan), Text(SecurityPrivacyRecheck), Text(ServiceHealthRecheck)]
      case ServicePause => [Text(PauseSequencing), Text(DataSafety), Text(CustomerImpactReview), Text(ReversalPath)]
      case ServiceTermination =>
        [Text(TerminationSequencingPlan), Text(DataRetention), Text(ArchiveExportBoundary), Text(AccessRevocationPlan),
         Text(IrreversibleActionBoundary)]
      case _ => []
  }

  // ------------------------------------------------------------------ the binding

  /** `scope_valid`. */
  predicate ScopeValid(scope: Value) {
    scope.Dict? && scope.fields.Keys == {OWNER_ID, TENANT_ID, WORKSPACE_ID}
    && forall k: Key | IsScopeField(k) :: IsId(Get(scope, k))
  }

  /** What both the builder and the validator ask of a binding. */
  predicate BindingOk(binding: Value) {
    && binding.Dict? && (forall k: Key :: k in binding.fields <==> InBinding(k)) && ScopeValid(Get(binding, SCOPE))
    && CapabilitiesOf(Get(binding, ACTION_FAMILY)) != []
    && CP.FamilyOfChoice(Get(binding, REQUESTED_CHOICE)) == Some(Get(binding, ACTION_FAMILY))
    && (exists kind: Word {:trigger Text(kind)} ::
          CP.OperationKind(Get(binding, ACTION_FAMILY)) == Some(kind) && Get(binding, OPERATION_KIND) == Text(kind))
    && (forall k: Key | IsBindingDigest(k) :: Get(binding, k).Sha?)
    && (forall k: Key | IsIdentity(k) :: IsId(Get(binding, k)))
  }

  /** The binding of a rebuilt command plan. */
  function BindingFrom(rebuilt: Value): Value {
    var plan := Get(rebuilt, COMMAND_PLAN);
    Dict(map k: Key | InBinding(k) ::
           if k == SCOPE then Get(rebuilt, SCOPE)
           else if k == COMMAND_PLAN_DIGEST then Get(rebuilt, COMMAND_PLAN_DIGEST) else Get(plan, k))
  }

  // -------------------------------------------------------------- the environment

  predicate InEnvironment(k: Key) {
    || k == SCHEMA || k == BINDING || k == EXPIRES_AT || k == EVIDENCE_REFS || SYNTHETIC <= k <= IRREVERSIBLE_BOUNDARY
  }

  predicate IsRisk(k: Key) { BILLING_DISPUTE <= k <= IRREVERSIBLE_BOUNDARY }

  /** `timestamp`: whole seconds only. */
  predicate IsWhole(v: Value) { v.Stamp? && v.form.Whole? }

  /** The environment is fresh at `now`. */
  predicate Fresh(environment: Value, now: Value) {
    var observed, expires := Get(environment, AS_OF), Get(environment, EXPIRES_AT);
    && IsWhole(observed) && IsWhole(expires) && IsWhole(now)
    && observed.us <= now.us < expires.us && expires.us - observed.us <= MAX_WINDOW
  }

  predicate RefsOk(refs: Value) {
    && refs.List? && 1 <= |refs.items| <= 16
    && (forall i | 0 <= i < |refs.items| :: IsId(refs.items[i]))
    && (forall i, j | 0 <= i < j < |refs.items| :: refs.items[i] != refs.items[j])
  }

  /** Everything but the clock. */
  predicate EnvironmentFits(environment: Value, binding: Value) {
    && environment.Dict? && (forall k: Key :: k in environment.fields <==> InEnvironment(k))
    && Get(environment, SCHEMA) == Text(EnvironmentSchema) && Get(environment, SYNTHETIC) == Bool(true)
    && Get(environment, BINDING) == binding
    && (forall k: Key | IsRisk(k) :: Get(environment, k) == Bool(false))
    && Get(environment, CAPACITY_SUFFICIENT) == Bool(true) && Get(environment, ROLLBACK_SUPPORTED) == Bool(true)
    && Get(environment, PROVIDER_STATE) == Text(SyntheticReady) && Get(environment, ROLLBACK_STATE) == Text(SyntheticReady)
    && Get(environment, FINOPS_MONTHLY_CENTS).Int? && 0 <= Get(environment, FINOPS_MONTHLY_CENTS).n <= FINOPS_CAP
    && RefsOk(Get(environment, EVIDENCE_REFS))
  }

  /** `environment_blockers_v2` finds nothing. */
  predicate EnvironmentOk(environment: Value, binding: Value, now: Value) {
    EnvironmentFits(environment, binding) && Fresh(environment, now)
  }

  // --------------------------------------------------------------- canonical form

  predicate InRollback(k: Key) {
    || k == BINDING || k == ROLLBACK_SUPPORTED || k == IRREVERSIBLE_BOUNDARY
    || ROLLBACK_MODE <= k <= ROLLBACK_CONFIRMATION_REQUIRED || IsAdapterFalse(k)
  }

  function RollbackField(binding: Value, k: Key): Value {
    if k == ROLLBACK_CONFIRMATION_REQUIRED || k == ROLLBACK_RECEIPT_REQUIRED then Bool(true)
    else if k == ROLLBACK_TIMEOUT_SECONDS then Int(180)
    else if k == ROLLBACK_EVIDENCE_REQUIRED then List([Text(BeforeStateProof), Text(RetentionProof)])
    else if k == ROLLBACK_STEPS then List([Text(DiscardChangeset), Text(RestoreBeforeState), Text(ReviewOwnerBoundary)])
    else if k == ROLLBACK_MODE then Text(StagingReversalOnly)
    else if k == ROLLBACK_SUPPORTED then Bool(true)
    else if k == BINDING then binding
    else Bool(false)
  }

  /** `rollback_for`. */
  function RollbackFor(binding: Value): Value {
    Dict(map k: Key | InRollback(k) :: RollbackField(binding, k))
  }

  predicate InBody(k: Key) {
    || k == OPERATION_KIND || k == TARGET_DOMAIN || COMMAND_PLAN_V1_DIGEST <= k <= OPERATION_KIND_SOURCE
    || k == COMMAND_PLAN_SCHEMA || BINDING <= k <= FINOPS_CAP_CENTS || IsAdapterFalse(k)
  }

  /** `plan_body` with the V2 additions. */
  function BodyField(binding: Value, environment: Value, v1Digest: Value, hardening: Value, k: Key): Value {
    if k == PRODUCTION_MUTATION_PERFORMED then Bool(false)
    else if k == FINOPS_CAP_CENTS then Int(FINOPS_CAP)
    else if k == HARDENING_DIGEST then Sha(hardening)
    else if k == SEPARATE_CONTRACT_REQUIRED then Bool(true)
    else if k == ROLLBACK_PLAN_DIGEST then Sha(RollbackFor(binding))
    else if k == ROLLBACK_PLAN then RollbackFor(binding)
    else if k == ENVIRONMENT_DIGEST then Sha(environment)
    else if k == ENVIRONMENT then environment
    else if k == RECEIPT_CLASSES then List([Text(DryRunReceipt)])
    else if k == SIDE_EFFECT_CLASSES then List([Text(StateComparisonOnly)])
    else if k == IDEMPOTENCY_KEY_DIGEST then Sha(binding)
    else if k == IDEMPOTENCY_STRATEGY then Text(BoundScopeAndDigest)
    else if k == ROLLBACK_STRATEGY then Text(StagingReversalOnly)
    else if k == REQUIRED_SCOPES then
      List([Text(OwnerScope), Text(TenantScope), Text(WorkspaceScope), Text(CustomerScope), Text(PilotScope),
            Text(PackageScope)])
    else if k == REQUIRED_CAPABILITIES then List(CapabilitiesOf(Get(binding, ACTION_FAMILY)))
    else if k == BINDING then binding
    else if ADAPTER_KIND <= k then Text(if k == ADAPTER_KIND then OfflineContract else SyntheticProvider)
    else if k == COMMAND_PLAN_SCHEMA then Text(CommandPlanV2Schema)
    else if IsAdapterFalse(k) then Bool(false)
    else if k == OPERATION_KIND_SOURCE then Text(DerivedFromActionFamily)
    else if k == SCOPE_SOURCE then Text(PersistedExecutionRecord)
    else if k == COMMAND_PLAN_V1_DIGEST then v1Digest
    else if k == TARGET_DOMAIN then Text(ManagedService)
    else Get(binding, OPERATION_KIND)
  }

  /** `_canonical_body`. */
  function Body(binding: Value, environment: Value, v1Digest: Value, hardening: Value): Value {
    Dict(map k: Key | InBody(k) :: BodyField(binding, environment, v1Digest, hardening, k))
  }

  predicate InReady(k: Key) {
    || SCHEMA <= k <= BLOCKERS || k == SCOPE_SOURCE || k == OPERATION_KIND_SOURCE
    || COMMAND_PLAN_SCHEMA <= k <= ADAPTER_PLAN_DIGEST || IsAdapterFalse(k)
  }

  function ReadyField(body: Value, k: Key): Value {
    if k == PRODUCTION_MUTATION_PERFORMED then Bool(false)
    else if k == ADAPTER_PLAN_DIGEST then Sha(body)
    else if k == ADAPTER_PLAN then body
    else if k == COMMAND_PLAN_SCHEMA then Text(CommandPlanV2Schema)
    else if k == OPERATION_KIND_SOURCE then Text(DerivedFromActionFamily)
    else if k == SCOPE_SOURCE then Text(PersistedExecutionRecord)
    else if COMMAND_GENERATED <= k then Bool(false)
    else if k == BLOCKERS then List([])
    else if k == STATE then Text(ReadyForDryRun)
    else Text(AdapterPlanSchema)
  }

  /** The READY result around a body. */
  function Ready(body: Value): Value {
    Dict(map k: Key | InReady(k) :: ReadyField(body, k))
  }

  // ---------------------------------------------------------- builder and validator

  /** `build_owner_renewal_action_adapter_plan_v2`. */
  function Build(
    supplied: Value, persisted: Value, writer: Value, preflight: Value, environment: Value, now: Value): Option<Value>
  {
    if !SafeInput(List([supplied, persisted, writer, preflight, environment])) then None
    else
      var rebuilt := CP.BuildV2(persisted, writer, preflight);
      if rebuilt.None? || supplied != rebuilt.value then None
      else if Get(persisted, BLOCKERS) != List([]) || Get(writer, BLOCKERS) != List([]) then None
      else
        var binding := BindingFrom(rebuilt.value);
        if !BindingOk(binding) || !EnvironmentOk(environment, binding, now) then None
        else
          Some(Ready(Body(binding, environment, Get(rebuilt.value, COMMAND_PLAN_V1_DIGEST),
                          Get(rebuilt.value, RED_TEAM_HARDENING))))
  }

  /** `validate_adapter_plan_v2`: the canonical body of an acceptable plan. */
  function Validate(supplied: Value, now: Value): Option<Value> {
    if !SafeInput(supplied) || !supplied.Dict? then None
    else if Get(supplied, SCHEMA) != Text(AdapterPlanSchema) || Get(supplied, STATE) != Text(ReadyForDryRun) then None
    else if Get(supplied, SCOPE_SOURCE) != Text(PersistedExecutionRecord)
         || Get(supplied, OPERATION_KIND_SOURCE) != Text(DerivedFromActionFamily) then None
    else
      var body := Get(supplied, ADAPTER_PLAN);
      var binding, environment := Get(body, BINDING), Get(body, ENVIRONMENT);
      if !body.Dict? || !BindingOk(binding) then None
      else if Get(body, COMMAND_PLAN_SCHEMA) != Text(CommandPlanV2Schema)
           || Get(body, SCOPE_SOURCE) != Text(PersistedExecutionRecord)
           || Get(body, OPERATION_KIND_SOURCE) != Text(DerivedFromActionFamily) then None
      else if !Get(body, COMMAND_PLAN_V1_DIGEST).Sha? || !Get(body, HARDENING_DIGEST).Sha? then None
      else if !EnvironmentOk(environment, binding, now) then None
      else
        var canonical := Body(binding, environment, Get(body, COMMAND_PLAN_V1_DIGEST), CP.Hardening());
        if Get(canonical, HARDENING_DIGEST) != Get(body, HARDENING_DIGEST) || supplied != Ready(canonical) then None
        else Some(canonical)
  }

  // ------------------------------------------------------------- exact inverses

  lemma {:induction false} BodyParts(binding: Value, environment: Value, v1Digest: Value, hardening: Value)
    ensures var body := Body(binding, environment, v1Digest, hardening);
            && Get(body, BINDING) == binding && Get(body, ENVIRONMENT) == environment
            && Get(body, ENVIRONMENT_DIGEST) == Sha(environment) && Get(body, COMMAND_PLAN_V1_DIGEST) == v1Digest
            && Get(body, HARDENING_DIGEST) == Sha(hardening)
  {
  }

  lemma {:induction false} BodySources(binding: Value, environment: Value, v1Digest: Value, hardening: Value)
    ensures var body := Body(binding, environment, v1Digest, hardening);
            && Get(body, COMMAND_PLAN_SCHEMA) == Text(CommandPlanV2Schema)
            && Get(body, SCOPE_SOURCE) == Text(PersistedExecutionRecord)
            && Get(body, OPERATION_KIND_SOURCE) == Text(DerivedFromActionFamily)
            && Get(body, REQUIRED_CAPABILITIES) == List(CapabilitiesOf(Get(binding, ACTION_FAMILY)))
  {
  }

  lemma {:induction false} BodyRest(binding: Value, environment: Value, v1Digest: Value, hardening: Value)
    ensures var body := Body(binding, environment, v1Digest, hardening);
            && Get(body, ADAPTER_KIND).Text? && Get(body, IDEMPOTENCY_KEY_DIGEST).Sha?
            && Get(body, ROLLBACK_PLAN_DIGEST).Sha? && Get(body, FINOPS_CAP_CENTS) == Int(FINOPS_CAP)
            && Get(body, RECEIPT_CLASSES) == List([Text(DryRunReceipt)])
  {
  }

  lemma {:induction false} ReadyParts(body: Value)
    ensures var ready := Ready(body);
            && Get(ready, SCHEMA) == Text(AdapterPlanSchema) && Get(ready, STATE) == Text(ReadyForDryRun)
            && Get(ready, SCOPE_SOURCE) == Text(PersistedExecutionRecord)
            && Get(ready, OPERATION_KIND_SOURCE) == Text(DerivedFromActionFamily)
            && Get(ready, ADAPTER_PLAN) == body && Get(ready, ADAPTER_PLAN_DIGEST) == Sha(body)
  {
  }

  // ------------------------------------------------ what is built is safe input

  /** The nodes of a binding, an environment, a rollback plan, a body and a READY plan are
      at most so many; what they hold is fixed but for the evidence references. */
  const BINDING_NODES := 30
  const ENVIRONMENT_NODES := 65
  const ROLLBACK_NODES := 290
  const BODY_NODES := 700
  const READY_NODES := 1000

  lemma {:induction false} ScopeFits(scope: Value, room: nat)
    requires ScopeValid(scope) && Harmless(scope) && room >= 1
    ensures Shallow(scope, room) && TypedInside(scope) && Nodes(scope) == 4
  {
    forall k: Key | k in scope.fields
      ensures IsScopeField(k) && IsId(scope.fields[k])
    {
      assert IsId(Get(scope, k));
    }
    ScopeNodes(scope);
  }

  /** The parts of a usable binding by their kind. */
  lemma {:induction false} BindingKinds(binding: Value)
    requires BindingOk(binding)
    ensures binding.Dict? && (forall k: Key :: k in binding.fields <==> InBinding(k)) && ScopeValid(Get(binding, SCOPE))
    ensures (forall k: Key | IsIdentity(k) :: IsId(Get(binding, k))) && Get(binding, OPERATION_KIND).Text?
    ensures forall k: Key | IsBindingDigest(k) :: Get(binding, k).Sha?
  {
  }

  lemma {:induction false} IdIsTyped(k: Key, v: Value)
    requires IsId(v) && IsIdentity(k)
    ensures Typed(k, v) && IsLeaf(v)
  {
  }

  lemma {:induction false} DigestIsTyped(k: Key, v: Value)
    requires v.Sha? && IsBindingDigest(k)
    ensures Typed(k, v) && IsLeaf(v)
  {
  }

  lemma {:induction false} BindingLeaf(binding: Value, k: Key)
    requires InBinding(k) && k != SCOPE
    requires (forall f: Key | IsIdentity(f) :: IsId(Get(binding, f))) && Get(binding, OPERATION_KIND).Text?
    requires forall f: Key | IsBindingDigest(f) :: Get(binding, f).Sha?
    ensures Typed(k, Get(binding, k)) && IsLeaf(Get(binding, k))
  {
    if IsIdentity(k) { IdIsTyped(k, Get(binding, k)); }
    if IsBindingDigest(k) { DigestIsTyped(k, Get(binding, k)); }
  }

  lemma {:induction false} BindingNodes(binding: Value)
    requires binding.Dict? && (forall k: Key :: k in binding.fields <==> InBinding(k)) && Nodes(Get(binding, SCOPE)) == 4
    requires forall k: Key | InBinding(k) && k != SCOPE :: IsLeaf(binding.fields[k])
    ensures Nodes(binding) <= BINDING_NODES
  {
    NoneBetween(binding, 0, 3);
    OneBetween(binding, SCOPE);
    NoneBetween(binding, 4, 13);
    SomeBetween(binding, 13, 30);
    NoneBetween(binding, 30, 102);
    SomeBetween(binding, 102, 107);
    NoneBetween(binding, 107, KEYS);
  }

  lemma {:induction false} ScopeIsTyped(scope: Value)
    requires ScopeValid(scope)
    ensures Typed(SCOPE, scope)
  {
  }

  lemma {:induction false} BindingFits(binding: Value, room: nat)
    requires BindingOk(binding) && Harmless(binding) && room >= 2
    ensures Fits(BINDING, binding, room) && Nodes(binding) <= BINDING_NODES
  {
    BindingKinds(binding);
    HarmlessField(binding, SCOPE);
    ScopeFits(Get(binding, SCOPE), room - 1);
    ScopeIsTyped(Get(binding, SCOPE));
    KindsFit(binding, room);
  }

  lemma {:induction false} KindsFit(binding: Value, room: nat)
    requires binding.Dict? && (forall k: Key :: k in binding.fields <==> InBinding(k)) && Harmless(binding) && room >= 2
    requires Fits(SCOPE, Get(binding, SCOPE), room - 1) && Nodes(Get(binding, SCOPE)) == 4
    requires (forall k: Key | IsIdentity(k) :: IsId(Get(binding, k))) && Get(binding, OPERATION_KIND).Text?
    requires forall k: Key | IsBindingDigest(k) :: Get(binding, k).Sha?
    ensures Fits(BINDING, binding, room) && Nodes(binding) <= BINDING_NODES
  {
    forall k: Key | k in binding.fields
      ensures Fits(k, binding.fields[k], room - 1) && (k != SCOPE ==> IsLeaf(binding.fields[k]))
    {
      if k != SCOPE {
        BindingLeaf(binding, k);
        LeafFits(k, binding.fields[k], room - 1);
      }
    }
    DictFits(binding, room);
    BindingNodes(binding);
  }

  lemma {:induction false} RefsFit(refs: Value, room: nat)
    requires RefsOk(refs) && Harmless(refs) && room >= 1
    ensures Shallow(refs, room) && TypedInside(refs) && Nodes(refs) <= 17
  {
    forall i | 0 <= i < |refs.items|
      ensures IsLeaf(refs.items[i]) && !refs.items[i].Int?
    {
      assert IsId(refs.items[i]);
    }
    LeafListNodes(refs, |refs.items|);
  }

  lemma {:induction false} EnvironmentLeaf(environment: Value, binding: Value, k: Key)
    requires EnvironmentFits(environment, binding) && IsWhole(Get(environment, AS_OF))
    requires IsWhole(Get(environment, EXPIRES_AT)) && InEnvironment(k) && k != BINDING && k != EVIDENCE_REFS
    ensures Typed(k, Get(environment, k)) && IsLeaf(Get(environment, k))
  {
    if IsRisk(k) { assert Get(environment, k) == Bool(false); }
  }

  lemma {:induction false} EnvironmentNodes(environment: Value)
    requires environment.Dict? && forall k: Key :: k in environment.fields <==> InEnvironment(k)
    requires forall k: Key | InEnvironment(k) && k != BINDING && k != EVIDENCE_REFS :: IsLeaf(environment.fields[k])
    requires Nodes(Get(environment, BINDING)) <= BINDING_NODES && Nodes(Get(environment, EVIDENCE_REFS)) <= 17
    ensures Nodes(environment) <= ENVIRONMENT_NODES
  {
    SomeBetween(environment, 0, 1);
    NoneBetween(environment, 1, 35);
    SomeBetween(environment, 35, 36);
    NoneBetween(environment, 36, 156);
    OneBetween(environment, EVIDENCE_REFS);
    NoneBetween(environment, 157, 173);
    OneBetween(environment, BINDING);
    NoneBetween(environment, 174, 191);
    SomeBetween(environment, 191, 203);
    NoneBetween(environment, 203, KEYS);
  }

  /** An environment as its fields read. */
  predicate Shaped(environment: Value, binding: Value) {
    && environment.Dict? && (forall k: Key :: k in environment.fields <==> InEnvironment(k))
    && Get(environment, BINDING) == binding && RefsOk(Get(environment, EVIDENCE_REFS))
    && forall k: Key | InEnvironment(k) && k != BINDING && k != EVIDENCE_REFS ::
         Typed(k, Get(environment, k)) && IsLeaf(Get(environment, k))
  }

  lemma {:induction false} EnvironmentIsShaped(environment: Value, binding: Value, now: Value)
    requires EnvironmentOk(environment, binding, now)
    ensures Shaped(environment, binding)
  {
    forall k: Key | InEnvironment(k) && k != BINDING && k != EVIDENCE_REFS
      ensures Typed(k, Get(environment, k)) && IsLeaf(Get(environment, k))
    {
      EnvironmentLeaf(environment, binding, k);
    }
  }

  lemma {:induction false} ShapedIsSafe(environment: Value, binding: Value, room: nat)
    requires Shaped(environment, binding) && Harmless(environment) && room >= 3
    requires Fits(BINDING, binding, room - 1) && Nodes(binding) <= BINDING_NODES
    ensures Fits(ENVIRONMENT, environment, room) && Nodes(environment) <= ENVIRONMENT_NODES
  {
    HarmlessField(environment, EVIDENCE_REFS);
    RefsFit(Get(environment, EVIDENCE_REFS), room - 1);
    PartsFit(environment, binding, Get(environment, EVIDENCE_REFS), room);
  }

  lemma {:induction false} BindingOf(environment: Value, binding: Value)
    requires Shaped(environment, binding) && Harmless(environment)
    ensures Harmless(binding)
  {
    HarmlessField(environment, BINDING);
  }

  /** The environment of a usable binding. */
  lemma {:induction false} EnvironmentIsSafe(environment: Value, binding: Value, now: Value, room: nat)
    requires EnvironmentOk(environment, binding, now) && BindingOk(binding) && Harmless(environment) && room >= 3
    ensures Fits(ENVIRONMENT, environment, room) && Nodes(environment) <= ENVIRONMENT_NODES
  {
    EnvironmentIsShaped(environment, binding, now);
    BindingOf(environment, binding);
    BindingFits(binding, room - 1);
    ShapedIsSafe(environment, binding, room);
  }

  lemma {:induction false} PartsFit(environment: Value, binding: Value, refs: Value, room: nat)
    requires environment.Dict? && (forall k: Key :: k in environment.fields <==> InEnvironment(k))
    requires Harmless(environment) && room >= 3
    requires Get(environment, BINDING) == binding && Fits(BINDING, binding, room - 1) && Nodes(binding) <= BINDING_NODES
    requires Get(environment, EVIDENCE_REFS) == refs && Nodes(refs) <= 17
    requires Shallow(refs, room - 1) && TypedInside(refs) && refs.List?
    requires forall k: Key | InEnvironment(k) && k != BINDING && k != EVIDENCE_REFS ::
               Typed(k, Get(environment, k)) && IsLeaf(Get(environment, k))
    ensures Fits(ENVIRONMENT, environment, room) && Nodes(environment) <= ENVIRONMENT_NODES
  {
    forall k: Key | k in environment.fields
      ensures Fits(k, environment.fields[k], room - 1)
      ensures k != BINDING && k != EVIDENCE_REFS ==> IsLeaf(environment.fields[k])
    {
      assert environment.fields[k] == Get(environment, k);
      if k != BINDING && k != EVIDENCE_REFS { LeafFits(k, environment.fields[k], room - 1); }
    }
    DictFits(environment, room);
    EnvironmentNodes(environment);
  }

  // ---- the rollback plan

  lemma {:induction false} RollbackLeaf(binding: Value, k: Key)
    requires InRollback(k) && k != BINDING && k != ROLLBACK_STEPS && k != ROLLBACK_EVIDENCE_REQUIRED
    ensures Typed(k, RollbackField(binding, k)) && IsLeaf(RollbackField(binding, k)) && Harmless(RollbackField(binding, k))
  {
  }

  /** A list of words of the program. */
  lemma {:induction false} WordsFit(k: Key, v: Value, room: nat)
    requires v.List? && (forall i | 0 <= i < |v.items| :: v.items[i].Text?) && room >= 1
    requires !IsTextKey(k) && !IsIntegerKey(k) && k != SCOPE && k != BINDING
    ensures Fits(k, v, room) && Nodes(v) == 1 + |v.items|
  {
    LeafListNodes(v, |v.items|);
  }

  predicate IsRollbackLeaf(k: Key) {
    InRollback(k) && k != BINDING && k != ROLLBACK_STEPS && k != ROLLBACK_EVIDENCE_REQUIRED
  }

  lemma {:induction false} RollbackNodes(rollback: Value)
    requires rollback.Dict? && forall k: Key :: k in rollback.fields <==> InRollback(k)
    requires forall k: Key | IsRollbackLeaf(k) :: IsLeaf(rollback.fields[k])
    requires Nodes(Get(rollback, BINDING)) <= BINDING_NODES && Nodes(Get(rollback, ROLLBACK_STEPS)) == 4
    requires Nodes(Get(rollback, ROLLBACK_EVIDENCE_REQUIRED)) == 3
    ensures Nodes(rollback) <= ROLLBACK_NODES
  {
    NoneBetween(rollback, 0, 41);
    SomeBetween(rollback, 41, 152);
    NoneBetween(rollback, 152, 173);
    OneBetween(rollback, BINDING);
    SomeBetween(rollback, 174, 286);
    SomeBetween(rollback, 286, 287);
    OneBetween(rollback, ROLLBACK_STEPS);
    OneBetween(rollback, ROLLBACK_EVIDENCE_REQUIRED);
    SomeBetween(rollback, 289, KEYS);
  }

  lemma {:induction false} RollbackIsSafe(binding: Value, room: nat)
    requires BindingOk(binding) && Harmless(binding) && room >= 3
    ensures Fits(ROLLBACK_PLAN, RollbackFor(binding), room) && Nodes(RollbackFor(binding)) <= ROLLBACK_NODES
  {
    BindingFits(binding, room - 1);
    FilledRollback(binding, room);
  }

  lemma {:induction false} RollbackFields(binding: Value, room: nat)
    requires Fits(BINDING, binding, room) && room >= 1
    ensures forall k: Key | InRollback(k) :: Fits(k, RollbackField(binding, k), room)
    ensures forall k: Key | IsRollbackLeaf(k) :: IsLeaf(RollbackField(binding, k))
  {
    forall k: Key | InRollback(k)
      ensures Fits(k, RollbackField(binding, k), room) && (IsRollbackLeaf(k) ==> IsLeaf(RollbackField(binding, k)))
    {
      RollbackFieldFits(binding, k, room);
    }
  }

  lemma {:induction false} RollbackParts(binding: Value)
    ensures var rollback := RollbackFor(binding);
            && rollback.Dict? && (forall k: Key :: k in rollback.fields <==> InRollback(k))
            && forall k: Key | InRollback(k) :: rollback.fields[k] == Get(rollback, k) == RollbackField(binding, k)
  {
  }

  lemma {:induction false} FilledRollback(binding: Value, room: nat)
    requires Fits(BINDING, binding, room - 1) && Nodes(binding) <= BINDING_NODES && room >= 3
    ensures Fits(ROLLBACK_PLAN, RollbackFor(binding), room) && Nodes(RollbackFor(binding)) <= ROLLBACK_NODES
  {
    RollbackFields(binding, room - 1);
    RollbackParts(binding);
    RollbackListNodes(binding);
    RollbackAs(RollbackFor(binding), k => RollbackField(binding, k), room);
  }

  lemma {:induction false} RollbackAs(rollback: Value, field: Key -> Value, room: nat)
    requires rollback.Dict? && (forall k: Key :: k in rollback.fields <==> InRollback(k)) && room >= 3
    requires forall k: Key | InRollback(k) :: rollback.fields[k] == Get(rollback, k) == field(k)
    requires forall k: Key | InRollback(k) :: Fits(k, field(k), room - 1)
    requires forall k: Key | IsRollbackLeaf(k) :: IsLeaf(field(k))
    requires Nodes(field(BINDING)) <= BINDING_NODES && Nodes(field(ROLLBACK_STEPS)) == 4
    requires Nodes(field(ROLLBACK_EVIDENCE_REQUIRED)) == 3
    ensures Fits(ROLLBACK_PLAN, rollback, room) && Nodes(rollback) <= ROLLBACK_NODES
  {
    FilledFits(rollback, InRollback, field, room);
    RollbackNodes(rollback);
  }

  lemma {:induction false} RollbackListNodes(binding: Value)
    ensures Nodes(RollbackField(binding, ROLLBACK_STEPS)) == 4
    ensures Nodes(RollbackField(binding, ROLLBACK_EVIDENCE_REQUIRED)) == 3
  {
    WordsFit(ROLLBACK_STEPS, RollbackField(binding, ROLLBACK_STEPS), 1);
    WordsFit(ROLLBACK_EVIDENCE_REQUIRED, RollbackField(binding, ROLLBACK_EVIDENCE_REQUIRED), 1);
  }

  lemma {:induction false} RollbackFieldFits(binding: Value, k: Key, room: nat)
    requires InRollback(k) && Fits(BINDING, binding, room) && room >= 1
    ensures Fits(k, RollbackField(binding, k), room)
    ensures k != BINDING && k != ROLLBACK_STEPS && k != ROLLBACK_EVIDENCE_REQUIRED ==> IsLeaf(RollbackField(binding, k))
  {
    if k == ROLLBACK_STEPS || k == ROLLBACK_EVIDENCE_REQUIRED {
      WordsFit(k, RollbackField(binding, k), room);
    } else if k != BINDING {
      RollbackLeaf(binding, k);
      LeafFits(k, RollbackField(binding, k), room);
    }
  }

  // ---- the body and the READY plan

  predicate IsBodyList(k: Key) { REQUIRED_CAPABILITIES <= k <= REQUIRED_SCOPES || SIDE_EFFECT_CLASSES <= k <= RECEIPT_CLASSES }

  predicate IsBodyLeaf(k: Key) {
    InBody(k) && k != BINDING && k != ENVIRONMENT && k != ROLLBACK_PLAN && !IsBodyList(k)
  }

  lemma {:induction false} BodyLeafBelow(binding: Value, environment: Value, v1Digest: Value, hardening: Value, k: Key)
    requires IsBodyLeaf(k) && k < ADAPTER_KIND && v1Digest.Sha? && Get(binding, OPERATION_KIND).Text?
    ensures var v := BodyField(binding, environment, v1Digest, hardening, k);
            Typed(k, v) && IsLeaf(v) && Harmless(v)
  {
  }

  predicate IsBodyDigest(k: Key) {
    k == HARDENING_DIGEST || k == ROLLBACK_PLAN_DIGEST || k == ENVIRONMENT_DIGEST || k == IDEMPOTENCY_KEY_DIGEST
  }

  predicate IsBodyWord(k: Key) {
    ADAPTER_KIND <= k <= PROVIDER_CLASS || ROLLBACK_STRATEGY <= k <= IDEMPOTENCY_STRATEGY
  }

  predicate IsBodyFlag(k: Key) { k == SEPARATE_CONTRACT_REQUIRED || k == PRODUCTION_MUTATION_PERFORMED }

  lemma {:induction false} BodyKinds(binding: Value, environment: Value, v1Digest: Value, hardening: Value, k: Key)
    ensures var v := BodyField(binding, environment, v1Digest, hardening, k);
            && (IsBodyDigest(k) ==> v.Sha?) && (IsBodyWord(k) ==> v.Text?) && (IsBodyFlag(k) ==> v.Bool?)
            && (k == FINOPS_CAP_CENTS ==> v == Int(FINOPS_CAP))
  {
  }

  lemma {:induction false} KindIsTyped(k: Key, v: Value)
    requires IsBodyDigest(k) || IsBodyWord(k) || IsBodyFlag(k) || k == FINOPS_CAP_CENTS
    requires (IsBodyDigest(k) ==> v.Sha?) && (IsBodyWord(k) ==> v.Text?) && (IsBodyFlag(k) ==> v.Bool?)
    requires k == FINOPS_CAP_CENTS ==> v == Int(FINOPS_CAP)
    ensures Typed(k, v) && IsLeaf(v) && Harmless(v)
  {
  }

  lemma {:induction false} BodyLeafAbove(binding: Value, environment: Value, v1Digest: Value, hardening: Value, k: Key)
    requires IsBodyLeaf(k) && ADAPTER_KIND <= k
    ensures var v := BodyField(binding, environment, v1Digest, hardening, k);
            Typed(k, v) && IsLeaf(v) && Harmless(v)
  {
    BodyKinds(binding, environment, v1Digest, hardening, k);
    KindIsTyped(k, BodyField(binding, environment, v1Digest, hardening, k));
  }

  lemma {:induction false} BodyLeaf(binding: Value, environment: Value, v1Digest: Value, hardening: Value, k: Key)
    requires IsBodyLeaf(k) && v1Digest.Sha? && Get(binding, OPERATION_KIND).Text?
    ensures var v := BodyField(binding, environment, v1Digest, hardening, k);
            Typed(k, v) && IsLeaf(v) && Harmless(v)
  {
    if k < ADAPTER_KIND {
      BodyLeafBelow(binding, environment, v1Digest, hardening, k);
    } else {
      BodyLeafAbove(binding, environment, v1Digest, hardening, k);
    }
  }

  lemma {:induction false} CapabilitiesAreWords(family: Value)
    ensures var required := CapabilitiesOf(family);
            |required| <= 5 && forall i | 0 <= i < |required| :: required[i].Text?
  {
  }

  lemma {:induction false} BodyList(
    binding: Value, environment: Value, v1Digest: Value, hardening: Value, k: Key, room: nat)
    requires IsBodyList(k) && room >= 1
    ensures var v := BodyField(binding, environment, v1Digest, hardening, k); Fits(k, v, room) && Nodes(v) <= 7
  {
    CapabilitiesAreWords(Get(binding, ACTION_FAMILY));
    WordsFit(k, BodyField(binding, environment, v1Digest, hardening, k), room);
  }

  lemma {:induction false} BodyFieldFits(
    binding: Value, environment: Value, v1Digest: Value, hardening: Value, k: Key, room: nat)
    requires InBody(k) && v1Digest.Sha? && Get(binding, OPERATION_KIND).Text? && room >= 1
    requires Fits(BINDING, binding, room) && Fits(ENVIRONMENT, environment, room)
    requires Fits(ROLLBACK_PLAN, RollbackFor(binding), room)
    ensures var v := BodyField(binding, environment, v1Digest, hardening, k);
            && Fits(k, v, room) && (IsBodyLeaf(k) ==> IsLeaf(v)) && (IsBodyList(k) ==> Nodes(v) <= 7)
  {
    var v := BodyField(binding, environment, v1Digest, hardening, k);
    if IsBodyLeaf(k) {
      BodyLeaf(binding, environment, v1Digest, hardening, k);
      LeafFits(k, v, room);
    } else if IsBodyList(k) {
      BodyList(binding, environment, v1Digest, hardening, k, room);
    }
  }

  lemma {:induction false} BodyNodes(body: Value)
    requires body.Dict? && forall k: Key :: k in body.fields <==> InBody(k)
    requires forall k: Key | IsBodyLeaf(k) :: IsLeaf(body.fields[k])
    requires forall k: Key | IsBodyList(k) :: Nodes(Get(body, k)) <= 7
    requires Nodes(Get(body, BINDING)) <= BINDING_NODES && Nodes(Get(body, ENVIRONMENT)) <= ENVIRONMENT_NODES
    requires Nodes(Get(body, ROLLBACK_PLAN)) <= ROLLBACK_NODES
    ensures Nodes(body) <= BODY_NODES
  {
    NoneBetween(body, 0, 41);
    SomeBetween(body, 41, 173);
    OneBetween(body, BINDING);
    SomeBetween(body, 174, 176);
    OneBetween(body, REQUIRED_CAPABILITIES);
    OneBetween(body, REQUIRED_SCOPES);
    BodyNodesAbove(body);
  }

  lemma {:induction false} BodyNodesAbove(body: Value)
    requires body.Dict? && forall k: Key :: k in body.fields <==> InBody(k)
    requires forall k: Key | IsBodyLeaf(k) :: IsLeaf(body.fields[k])
    requires forall k: Key | IsBodyList(k) :: Nodes(Get(body, k)) <= 7
    requires Nodes(Get(body, ENVIRONMENT)) <= ENVIRONMENT_NODES && Nodes(Get(body, ROLLBACK_PLAN)) <= ROLLBACK_NODES
    ensures NodesBelow(body, KEYS) <= NodesBelow(body, 178) + 30 + ENVIRONMENT_NODES + ROLLBACK_NODES
  {
    SomeBetween(body, 178, 181);
    OneBetween(body, SIDE_EFFECT_CLASSES);
    OneBetween(body, RECEIPT_CLASSES);
    OneBetween(body, ENVIRONMENT);
    SomeBetween(body, 184, 185);
    OneBetween(body, ROLLBACK_PLAN);
    SomeBetween(body, 186, 191);
    NoneBetween(body, 191, KEYS);
  }

  lemma {:induction false} BodyIsFilled(
    binding: Value, environment: Value, v1Digest: Value, hardening: Value, field: Key -> Value)
    requires field == (k => BodyField(binding, environment, v1Digest, hardening, k))
    ensures var body := Body(binding, environment, v1Digest, hardening);
            && body.Dict? && (forall k: Key :: k in body.fields <==> InBody(k))
            && forall k: Key | InBody(k) :: body.fields[k] == Get(body, k) == field(k)
  {
  }

  lemma {:induction false} BodyFieldsFit(
    binding: Value, environment: Value, v1Digest: Value, hardening: Value, room: nat)
    requires v1Digest.Sha? && Get(binding, OPERATION_KIND).Text? && room >= 1
    requires Fits(BINDING, binding, room) && Fits(ENVIRONMENT, environment, room)
    requires Fits(ROLLBACK_PLAN, RollbackFor(binding), room)
    ensures forall k: Key | InBody(k) ::
              var v := BodyField(binding, environment, v1Digest, hardening, k);
              && Fits(k, v, room) && (IsBodyLeaf(k) ==> IsLeaf(v)) && (IsBodyList(k) ==> Nodes(v) <= 7)
  {
    forall k: Key | InBody(k)
      ensures var v := BodyField(binding, environment, v1Digest, hardening, k);
              && Fits(k, v, room) && (IsBodyLeaf(k) ==> IsLeaf(v)) && (IsBodyList(k) ==> Nodes(v) <= 7)
    {
      BodyFieldFits(binding, environment, v1Digest, hardening, k, room);
    }
  }

  lemma {:induction false} BodyHeavy(binding: Value, environment: Value, v1Digest: Value, hardening: Value)
    ensures BodyField(binding, environment, v1Digest, hardening, BINDING) == binding
    ensures BodyField(binding, environment, v1Digest, hardening, ENVIRONMENT) == environment
    ensures BodyField(binding, environment, v1Digest, hardening, ROLLBACK_PLAN) == RollbackFor(binding)
  {
  }

  /** The fields of a body fit, and its heavy ones are not too heavy. */
  predicate FieldsFit(field: Key -> Value, room: nat) {
    && (forall k: Key | InBody(k) ::
          Fits(k, field(k), room) && (IsBodyLeaf(k) ==> IsLeaf(field(k))) && (IsBodyList(k) ==> Nodes(field(k)) <= 7))
    && Nodes(field(BINDING)) <= BINDING_NODES && Nodes(field(ENVIRONMENT)) <= ENVIRONMENT_NODES
    && Nodes(field(ROLLBACK_PLAN)) <= ROLLBACK_NODES
  }

  lemma {:induction false} BodyAs(body: Value, field: Key -> Value, room: nat)
    requires body.Dict? && (forall k: Key :: k in body.fields <==> InBody(k)) && room >= 4
    requires forall k: Key | InBody(k) :: body.fields[k] == Get(body, k) == field(k)
    requires FieldsFit(field, room - 1)
    ensures Fits(ADAPTER_PLAN, body, room) && Nodes(body) <= BODY_NODES
  {
    FilledFits(body, InBody, field, room);
    BodyNodes(body);
  }

  lemma {:induction false} BodyFits(
    binding: Value, environment: Value, v1Digest: Value, hardening: Value, rollback: Value, field: Key -> Value)
    requires v1Digest.Sha? && Get(binding, OPERATION_KIND).Text? && rollback == RollbackFor(binding)
    requires Fits(BINDING, binding, 9) && Nodes(binding) <= BINDING_NODES
    requires Fits(ENVIRONMENT, environment, 9) && Nodes(environment) <= ENVIRONMENT_NODES
    requires Fits(ROLLBACK_PLAN, rollback, 9) && Nodes(rollback) <= ROLLBACK_NODES
    requires field == (k => BodyField(binding, environment, v1Digest, hardening, k))
    ensures FieldsFit(field, 9)
  {
    BodyFieldsFit(binding, environment, v1Digest, hardening, 9);
    BodyHeavy(binding, environment, v1Digest, hardening);
  }

  /** A canonical body of harmless parts is in order. */
  lemma {:induction false} BodyIsSafe(binding: Value, environment: Value, v1Digest: Value, hardening: Value, now: Value)
    requires BindingOk(binding) && EnvironmentOk(environment, binding, now) && v1Digest.Sha? && Harmless(environment)
    ensures var body := Body(binding, environment, v1Digest, hardening);
            Fits(ADAPTER_PLAN, body, 10) && Nodes(body) <= BODY_NODES
  {
    EnvironmentIsShaped(environment, binding, now);
    BindingOf(environment, binding);
    EnvironmentIsSafe(environment, binding, now, 9);
    RollbackIsSafe(binding, 9);
    BindingFits(binding, 9);
    BindingKinds(binding);
    var field := (k: Key) => BodyField(binding, environment, v1Digest, hardening, k);
    BodyFits(binding, environment, v1Digest, hardening, RollbackFor(binding), field);
    BodyIsFilled(binding, environment, v1Digest, hardening, field);
    BodyAs(Body(binding, environment, v1Digest, hardening), field, 10);
  }

  lemma {:induction false} ReadyLeaf(body: Value, k: Key)
    requires InReady(k) && k != ADAPTER_PLAN && k != BLOCKERS
    ensures Typed(k, ReadyField(body, k)) && IsLeaf(ReadyField(body, k)) && Harmless(ReadyField(body, k))
  {
  }

  lemma {:induction false} ReadyNodes(ready: Value)
    requires ready.Dict? && forall k: Key :: k in ready.fields <==> InReady(k)
    requires forall k: Key | InReady(k) && k != ADAPTER_PLAN && k != BLOCKERS :: IsLeaf(ready.fields[k])
    requires Nodes(Get(ready, ADAPTER_PLAN)) <= BODY_NODES && Nodes(Get(ready, BLOCKERS)) == 1
    ensures Nodes(ready) <= READY_NODES
  {
    SomeBetween(ready, 0, 2);
    OneBetween(ready, BLOCKERS);
    NoneBetween(ready, 3, 41);
    SomeBetween(ready, 41, 171);
    OneBetween(ready, ADAPTER_PLAN);
    SomeBetween(ready, 172, KEYS);
  }

  lemma {:induction false} ReadyIsFilled(body: Value)
    ensures var ready := Ready(body);
            && ready.Dict? && (forall k: Key :: k in ready.fields <==> InReady(k))
            && forall k: Key | InReady(k) :: ready.fields[k] == Get(ready, k) == ReadyField(body, k)
  {
  }

  lemma {:induction false} ReadyFieldsFit(body: Value)
    requires Fits(ADAPTER_PLAN, body, 10)
    ensures forall k: Key | InReady(k) ::
              && Fits(k, ReadyField(body, k), 10)
              && (k != ADAPTER_PLAN && k != BLOCKERS ==> IsLeaf(ReadyField(body, k)))
  {
    forall k: Key | InReady(k)
      ensures Fits(k, ReadyField(body, k), 10)
      ensures k != ADAPTER_PLAN && k != BLOCKERS ==> IsLeaf(ReadyField(body, k))
    {
      if k == BLOCKERS {
        WordsFit(k, ReadyField(body, k), 10);
      } else if k != ADAPTER_PLAN {
        ReadyLeaf(body, k);
        LeafFits(k, ReadyField(body, k), 10);
      }
    }
  }

  lemma {:induction false} ReadyAs(ready: Value, field: Key -> Value)
    requires ready.Dict? && (forall k: Key :: k in ready.fields <==> InReady(k))
    requires forall k: Key | InReady(k) :: ready.fields[k] == Get(ready, k) == field(k)
    requires forall k: Key | InReady(k) ::
               Fits(k, field(k), 10) && (k != ADAPTER_PLAN && k != BLOCKERS ==> IsLeaf(field(k)))
    requires Nodes(field(ADAPTER_PLAN)) <= BODY_NODES && Nodes(field(BLOCKERS)) == 1
    ensures FitsInList(ready) && Nodes(ready) <= READY_NODES
  {
    FilledFits(ready, InReady, field, 11);
    ReadyNodes(ready);
  }

  lemma {:induction false} FilledReady(body: Value)
    requires Fits(ADAPTER_PLAN, body, 10) && Nodes(body) <= BODY_NODES
    ensures FitsInList(Ready(body)) && Nodes(Ready(body)) <= READY_NODES && SafeInput(Ready(body))
  {
    ReadyFieldsFit(body);
    ReadyIsFilled(body);
    WordsFit(BLOCKERS, ReadyField(body, BLOCKERS), 10);
    ReadyAs(Ready(body), k => ReadyField(body, k));
    InListIsSafe(Ready(body));
  }

  // -------------------------------------------------------------- exact inverses

  lemma {:induction false} CanonicalIsSafe(binding: Value, environment: Value, v1Digest: Value, hardening: Value, now: Value)
    requires BindingOk(binding) && EnvironmentOk(environment, binding, now) && v1Digest.Sha?
    ensures var ready := Ready(Body(binding, environment, v1Digest, hardening));
            && (SafeInput(ready) <==> Harmless(environment))
            && (Harmless(environment) ==> FitsInList(ready) && Nodes(ready) <= READY_NODES)
  {
    var body := Body(binding, environment, v1Digest, hardening);
    if Harmless(environment) {
      BodyIsSafe(binding, environment, v1Digest, hardening, now);
      FilledReady(body);
    } else if SafeInput(Ready(body)) {
      ReadyParts(body);
      BodyParts(binding, environment, v1Digest, hardening);
      HarmlessField(Ready(body), ADAPTER_PLAN);
      HarmlessField(body, ENVIRONMENT);
      assert false;
    }
  }

  /** A canonical plan with a usable binding is accepted throughout its window if and only
      if the texts of its environment are harmless. */
  lemma {:induction false} CanonicalIsAccepted(binding: Value, environment: Value, v1Digest: Value, now: Value)
    requires BindingOk(binding) && EnvironmentOk(environment, binding, now) && v1Digest.Sha?
    ensures var body := Body(binding, environment, v1Digest, CP.Hardening());
            Validate(Ready(body), now) == if Harmless(environment) then Some(body) else None
  {
    BodyParts(binding, environment, v1Digest, CP.Hardening());
    BodySources(binding, environment, v1Digest, CP.Hardening());
    ReadyParts(Body(binding, environment, v1Digest, CP.Hardening()));
    CanonicalIsSafe(binding, environment, v1Digest, CP.Hardening(), now);
  }

  /** And nothing else is: an accepted value is the canonical rebuild of its own parts. */
  lemma {:induction false} AcceptedIsCanonical(supplied: Value, now: Value)
    requires Validate(supplied, now).Some?
    ensures var body := Validate(supplied, now).value;
            var binding, environment := Get(body, BINDING), Get(body, ENVIRONMENT);
            && body == Get(supplied, ADAPTER_PLAN) && supplied == Ready(body)
            && body == Body(binding, environment, Get(body, COMMAND_PLAN_V1_DIGEST), CP.Hardening())
            && BindingOk(binding) && EnvironmentOk(environment, binding, now)
            && Get(body, ENVIRONMENT_DIGEST) == Sha(environment)
            && Get(body, REQUIRED_CAPABILITIES) == List(CapabilitiesOf(Get(binding, ACTION_FAMILY)))
    ensures Harmless(supplied)
  {
    var body := Get(supplied, ADAPTER_PLAN);
    var canonical := Validate(supplied, now).value;
    BodyParts(Get(body, BINDING), Get(body, ENVIRONMENT), Get(body, COMMAND_PLAN_V1_DIGEST), CP.Hardening());
    BodySources(Get(body, BINDING), Get(body, ENVIRONMENT), Get(body, COMMAND_PLAN_V1_DIGEST), CP.Hardening());
    ReadyParts(canonical);
  }

  /** And it fits in a list of inputs. */
  lemma {:induction false} AcceptedFits(supplied: Value, now: Value)
    requires Validate(supplied, now).Some?
    ensures FitsInList(supplied) && Nodes(supplied) <= READY_NODES
  {
    var body := Validate(supplied, now).value;
    AcceptedIsCanonical(supplied, now);
    AcceptedDigest(supplied, now);
    CanonicalIsSafe(Get(body, BINDING), Get(body, ENVIRONMENT), Get(body, COMMAND_PLAN_V1_DIGEST), CP.Hardening(), now);
  }

  lemma {:induction false} AcceptedDigest(supplied: Value, now: Value)
    requires Validate(supplied, now).Some?
    ensures SafeInput(supplied) && Get(Get(supplied, ADAPTER_PLAN), COMMAND_PLAN_V1_DIGEST).Sha?
  {
  }

  lemma {:induction false} RebuiltParts(persisted: Value, writer: Value, preflight: Value)
    requires CP.BuildV2(persisted, writer, preflight).Some?
    ensures var rebuilt := CP.BuildV2(persisted, writer, preflight).value;
            Get(rebuilt, RED_TEAM_HARDENING) == CP.Hardening() && Get(rebuilt, COMMAND_PLAN_V1_DIGEST).Sha?
  {
    var v1 := CP.V1Plan(CP.StrictScope(Get(persisted, SCOPE)), persisted, writer);
    CP.V2Steps(persisted, writer, preflight);
    CP.V2ResultProvenance(v1, persisted);
  }

  lemma {:induction false} LastIsHarmless(a: Value, b: Value, c: Value, d: Value, e: Value)
    requires SafeInput(List([a, b, c, d, e]))
    ensures Harmless(e)
  {
    assert List([a, b, c, d, e]).items[4] == e;
  }

  /** A built READY plan validates back to its own body at any time inside its window. */
  lemma {:induction false} BuiltIsAccepted(
    supplied: Value, persisted: Value, writer: Value, preflight: Value, environment: Value, now: Value, later: Value)
    requires Build(supplied, persisted, writer, preflight, environment, now).Some?
    requires Fresh(environment, later)
    ensures var ready := Build(supplied, persisted, writer, preflight, environment, now).value;
            Validate(ready, later) == Some(Get(ready, ADAPTER_PLAN))
  {
    var rebuilt := CP.BuildV2(persisted, writer, preflight).value;
    var v1Digest := Get(rebuilt, COMMAND_PLAN_V1_DIGEST);
    RebuiltParts(persisted, writer, preflight);
    LastIsHarmless(supplied, persisted, writer, preflight, environment);
    ReadyParts(Body(BindingFrom(rebuilt), environment, v1Digest, CP.Hardening()));
    CanonicalIsAccepted(BindingFrom(rebuilt), environment, v1Digest, later);
  }
}
