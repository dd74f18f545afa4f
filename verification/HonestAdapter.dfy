/** Honest runs of the adapter chain: exactly which command plans can be adapted, and that
    an adapted plan can be simulated and a simulation acknowledged. */
module HonestAdapter {
  import opened Wrappers
  import opened Records
  import opened InputGuard
  import opened AdapterPlan
  import opened AdapterDryRun
  import opened AdapterReceipt
  import CP = CommandPlan
  import L = Lineage

  // ------------------------------------------------------------- the adapter plan

  /** What the adapter asks of a binding beyond what a command plan guarantees. */
  predicate Adaptable(binding: Value) {
    && (forall k: Key | IsScopeField(k) :: IsId(Get(Get(binding, SCOPE), k)))
    && (forall k: Key | IsIdentity(k) :: IsId(Get(binding, k)))
    && CP.FamilyOfChoice(Get(binding, REQUESTED_CHOICE)) == Some(Get(binding, ACTION_FAMILY))
    && Get(binding, EXECUTION_RECORD_DIGEST).Sha?
  }

  lemma {:induction false} BindingParts(rebuilt: Value)
    ensures var binding, plan := BindingFrom(rebuilt), Get(rebuilt, COMMAND_PLAN);
            && binding.Dict? && (forall k: Key :: k in binding.fields <==> InBinding(k))
            && Get(binding, SCOPE) == Get(rebuilt, SCOPE)
            && Get(binding, COMMAND_PLAN_DIGEST) == Get(rebuilt, COMMAND_PLAN_DIGEST)
            && forall k: Key | InBinding(k) && k != SCOPE && k != COMMAND_PLAN_DIGEST :: Get(binding, k) == Get(plan, k)
  {
  }

  /** What the checks of V1 and of the guard say about the upstream digests. */
  lemma {:induction false} CheckedDigests(trusted: ScopeTriple, persisted: Value, writer: Value, preflight: Value)
    requires CP.GuardOk(persisted, writer, preflight) && CP.BuildV1(trusted, persisted, writer, preflight).Some?
    ensures forall k: Key | IsPreflightDigest(k) :: Get(persisted, k).Sha?
    ensures Get(persisted, EXECUTION_REQUEST_DIGEST).Sha? && Get(writer, WRITER_REQUEST_DIGEST).Sha?
  {
  }

  /** Five of the six digests of a command plan always have the form of a digest. */
  lemma {:induction false} PlanDigestForm(persisted: Value, writer: Value, preflight: Value)
    requires CP.BuildV2(persisted, writer, preflight).Some?
    ensures var rebuilt := CP.BuildV2(persisted, writer, preflight).value;
            var plan := Get(rebuilt, COMMAND_PLAN);
            && Get(plan, ACTION_PARAMETERS_DIGEST).Sha? && Get(plan, EXECUTION_PREFLIGHT_DIGEST).Sha?
            && Get(plan, EXECUTION_REQUEST_DIGEST).Sha? && Get(plan, INTENT_WRITER_REQUEST_DIGEST).Sha?
            && Get(rebuilt, COMMAND_PLAN_DIGEST).Sha?
  {
    var trusted := CP.StrictScope(Get(persisted, SCOPE));
    CP.V2Steps(persisted, writer, preflight);
    CheckedDigests(trusted, persisted, writer, preflight);
    ResultDigestForm(trusted, persisted, writer);
  }

  lemma {:induction false} ResultDigestForm(trusted: ScopeTriple, persisted: Value, writer: Value)
    requires forall k: Key | IsPreflightDigest(k) :: Get(persisted, k).Sha?
    requires Get(persisted, EXECUTION_REQUEST_DIGEST).Sha? && Get(writer, WRITER_REQUEST_DIGEST).Sha?
    ensures var rebuilt := CP.V2Result(CP.V1Plan(trusted, persisted, writer), persisted);
            var plan := Get(rebuilt, COMMAND_PLAN);
            && Get(plan, ACTION_PARAMETERS_DIGEST).Sha? && Get(plan, EXECUTION_PREFLIGHT_DIGEST).Sha?
            && Get(plan, EXECUTION_REQUEST_DIGEST).Sha? && Get(plan, INTENT_WRITER_REQUEST_DIGEST).Sha?
            && Get(rebuilt, COMMAND_PLAN_DIGEST).Sha?
  {
    L.V2ResultDigests(trusted, persisted, writer);
    CP.V2ResultProvenance(CP.V1Plan(trusted, persisted, writer), persisted);
    assert IsPreflightDigest(ACTION_PARAMETERS_DIGEST) && IsPreflightDigest(EXECUTION_PREFLIGHT_DIGEST);
  }

  lemma {:induction false} KindIsSupported(family: Value)
    requires CP.OperationKind(family).Some?
    ensures CapabilitiesOf(family) != []
  {
  }

  lemma {:induction false} V1Kind(trusted: ScopeTriple, persisted: Value, writer: Value)
    ensures var plan := CP.V1Plan(trusted, persisted, writer);
            var kind := CP.OperationKind(Get(plan, ACTION_FAMILY));
            && (kind.Some? ==> Get(plan, OPERATION_KIND) == Text(kind.value))
            && Get(plan, ACTION_FAMILY) == CP.IdentityText(persisted, ACTION_FAMILY, 40)
            && Get(plan, SCOPE) == CP.ScopeDict(trusted)
  {
  }

  lemma {:induction false} ResultScope(v1: Value, persisted: Value)
    ensures Get(CP.V2Result(v1, persisted), SCOPE) == Get(v1, SCOPE)
  {
  }

  lemma {:induction false} CheckedFamily(trusted: ScopeTriple, persisted: Value, writer: Value, preflight: Value)
    requires CP.BuildV1(trusted, persisted, writer, preflight).Some?
    ensures CP.OperationKind(CP.IdentityText(persisted, ACTION_FAMILY, 40)).Some?
  {
  }

  /** The operation kind always follows from a supported family, and the scope always has
      its three fields. */
  lemma {:induction false} PlanKind(persisted: Value, writer: Value, preflight: Value)
    requires CP.BuildV2(persisted, writer, preflight).Some?
    ensures var rebuilt := CP.BuildV2(persisted, writer, preflight).value;
            var plan := Get(rebuilt, COMMAND_PLAN);
            var kind := CP.OperationKind(Get(plan, ACTION_FAMILY));
            && kind.Some? && Get(plan, OPERATION_KIND) == Text(kind.value)
            && CapabilitiesOf(Get(plan, ACTION_FAMILY)) != []
            && Get(rebuilt, SCOPE).Dict? && Get(rebuilt, SCOPE).fields.Keys == {OWNER_ID, TENANT_ID, WORKSPACE_ID}
  {
    var trusted := CP.StrictScope(Get(persisted, SCOPE));
    CP.V2Steps(persisted, writer, preflight);
    CheckedFamily(trusted, persisted, writer, preflight);
    ResultKind(trusted, persisted, writer);
  }

  lemma {:induction false} ResultKind(trusted: ScopeTriple, persisted: Value, writer: Value)
    requires CP.OperationKind(CP.IdentityText(persisted, ACTION_FAMILY, 40)).Some?
    ensures var rebuilt := CP.V2Result(CP.V1Plan(trusted, persisted, writer), persisted);
            var plan := Get(rebuilt, COMMAND_PLAN);
            var kind := CP.OperationKind(Get(plan, ACTION_FAMILY));
            && kind.Some? && Get(plan, OPERATION_KIND) == Text(kind.value)
            && CapabilitiesOf(Get(plan, ACTION_FAMILY)) != []
            && Get(rebuilt, SCOPE).Dict? && Get(rebuilt, SCOPE).fields.Keys == {OWNER_ID, TENANT_ID, WORKSPACE_ID}
  {
    var v1 := CP.V1Plan(trusted, persisted, writer);
    V1Kind(trusted, persisted, writer);
    CP.V2ResultFields(v1, persisted);
    ResultScope(v1, persisted);
    KindIsSupported(Get(v1, ACTION_FAMILY));
  }

  lemma {:induction false} BindingOkIff(rebuilt: Value)
    requires var plan := Get(rebuilt, COMMAND_PLAN);
             var kind := CP.OperationKind(Get(plan, ACTION_FAMILY));
             && Get(plan, ACTION_PARAMETERS_DIGEST).Sha? && Get(plan, EXECUTION_PREFLIGHT_DIGEST).Sha?
             && Get(plan, EXECUTION_REQUEST_DIGEST).Sha? && Get(plan, INTENT_WRITER_REQUEST_DIGEST).Sha?
             && Get(rebuilt, COMMAND_PLAN_DIGEST).Sha?
             && kind.Some? && Get(plan, OPERATION_KIND) == Text(kind.value)
             && CapabilitiesOf(Get(plan, ACTION_FAMILY)) != []
             && Get(rebuilt, SCOPE).Dict? && Get(rebuilt, SCOPE).fields.Keys == {OWNER_ID, TENANT_ID, WORKSPACE_ID}
    ensures BindingOk(BindingFrom(rebuilt)) <==> Adaptable(BindingFrom(rebuilt))
  {
    var binding := BindingFrom(rebuilt);
    BindingParts(rebuilt);
    assert InBinding(ACTION_FAMILY) && InBinding(OPERATION_KIND) && InBinding(EXECUTION_RECORD_DIGEST);
    if Adaptable(binding) {
      forall k: Key | IsBindingDigest(k)
        ensures Get(binding, k).Sha?
      {
        assert InBinding(k);
      }
    }
  }

  /** Of all the checks that the adapter repeats on a rebuilt command plan, only these can
      fail: its own copy, two empty blocker lists, short identifiers, the choice that stands
      for the family, the form of the record digest, and the environment. */
  lemma {:induction false} AdaptedIff(
    supplied: Value, persisted: Value, writer: Value, preflight: Value, environment: Value,
    now: Value)
    requires CP.BuildV2(persisted, writer, preflight).Some?
    ensures var rebuilt := CP.BuildV2(persisted, writer, preflight).value;
            Build(supplied, persisted, writer, preflight, environment, now).Some? <==>
            && SafeInput(List([supplied, persisted, writer, preflight, environment])) && supplied == rebuilt
            && Get(persisted, BLOCKERS) == List([]) && Get(writer, BLOCKERS) == List([])
            && Adaptable(BindingFrom(rebuilt)) && EnvironmentOk(environment, BindingFrom(rebuilt), now)
  {
    PlanDigestForm(persisted, writer, preflight);
    PlanKind(persisted, writer, preflight);
    BindingOkIff(CP.BuildV2(persisted, writer, preflight).value);
  }

  // ------------------------------------------------------------------ the dry run

  /** A snapshot of a healthy synthetic party, without its digest. */
  function SnapshotBody(binding: Value, environment: Value, before: Value, service: bool): map<Key, Value> {
    var common := map[SCHEMA := Text(if service then ServiceSchema else SnapshotSchema), SYNTHETIC := Bool(true),
                      BINDING := binding, ENVIRONMENT := environment];
    if service then
      common[CONTRACT_STATE := Text(SyntheticValid)][SERVICE_STATE := Text(SyntheticHealthy)][BEFORE_STATE := before]
    else common
  }

  function SnapshotFor(binding: Value, environment: Value, before: Value, service: bool): Value {
    var body := SnapshotBody(binding, environment, before, service);
    Dict(body[SNAPSHOT_STATE_DIGEST := Sha(Dict(body))])
  }

  lemma {:induction false} SnapshotKeys(binding: Value, environment: Value, before: Value, service: bool)
    ensures var s := SnapshotFor(binding, environment, before, service);
            s.Dict? && forall k: Key :: k in s.fields <==> InSnapshot(k, service)
  {
  }

  lemma {:induction false} SnapshotFields(binding: Value, environment: Value, before: Value, service: bool)
    ensures var s := SnapshotFor(binding, environment, before, service);
            && Get(s, SCHEMA) == Text(if service then ServiceSchema else SnapshotSchema)
            && Get(s, SYNTHETIC) == Bool(true) && Get(s, BINDING) == binding && Get(s, ENVIRONMENT) == environment
  {
  }

  lemma {:induction false} ServiceFields(binding: Value, environment: Value, before: Value)
    ensures var s := SnapshotFor(binding, environment, before, true);
            && Get(s, CONTRACT_STATE) == Text(SyntheticValid) && Get(s, SERVICE_STATE) == Text(SyntheticHealthy)
            && Get(s, BEFORE_STATE) == before
  {
  }

  lemma {:induction false} SnapshotDigest(binding: Value, environment: Value, before: Value, service: bool)
    ensures var s := SnapshotFor(binding, environment, before, service);
            s.Dict? && Get(s, SNAPSHOT_STATE_DIGEST) == Sha(Dict(s.fields - {SNAPSHOT_STATE_DIGEST}))
  {
    var body := SnapshotBody(binding, environment, before, service);
    assert body[SNAPSHOT_STATE_DIGEST := Sha(Dict(body))] - {SNAPSHOT_STATE_DIGEST} == body;
  }

  lemma {:induction false} SnapshotFits(binding: Value, environment: Value, before: Value, now: Value, service: bool)
    requires EnvironmentOk(environment, binding, now) && BeforeOk(before)
    ensures var s := SnapshotFor(binding, environment, before, service);
            SnapshotOk(s, binding, now, service) && Get(s, ENVIRONMENT) == environment
  {
    SnapshotKeys(binding, environment, before, service);
    SnapshotFields(binding, environment, before, service);
    SnapshotDigest(binding, environment, before, service);
    if service { ServiceFields(binding, environment, before); }
  }

  predicate IsCapability(w: Word) {
    w in {AccessLifecyclePlan, AccessRevocationPlan, ArchiveExportBoundary, BillingReviewBoundary, CapacityPlan,
          CapacityReview, CommercialPricingPlan, ContractAmendmentBoundary, ContractChange, ContractContinuity,
          CustomerImpactReview, CustomerNoticeBoundary, DataRetention, DataSafety, FinopsValidation,
          IncidentContainmentPlan, IrreversibleActionBoundary, OffboardingPlan, OwnerOnlyApprovalBoundary,
          PackageScopeReview, PauseSequencing, PricingBoundary, QuotaBoundary, RemediationReversal, ReversalPath,
          SecurityPrivacyRecheck, ServiceContinuity, ServiceHealthRecheck, ServiceRemediationPlan,
          TerminationSequencingPlan}
  }

  lemma {:induction false} CapabilityIsKnown(v: Value)
    requires v.Text? && IsCapability(v.word)
    ensures v in Alphabet()
  {
  }

  lemma {:induction false} RequiredAreCapabilities(family: Value)
    ensures var required := CapabilitiesOf(family);
            && |required| <= 5
            && (forall i | 0 <= i < |required| :: required[i].Text? && IsCapability(required[i].word))
            && (forall i, j | 0 <= i < j < |required| :: required[i] != required[j])
  {
  }

  /** What a plan requires is a list that the dry run knows. */
  lemma {:induction false} RequiredAreKnown(family: Value)
    ensures CapabilitiesKnown(List(CapabilitiesOf(family)))
  {
    var required := CapabilitiesOf(family);
    RequiredAreCapabilities(family);
    forall i | 0 <= i < |required| ensures required[i] in Alphabet() { CapabilityIsKnown(required[i]); }
    assert |Alphabet()| == 30;
  }

  /** The parts of a healthy snapshot of a harmless environment are harmless. */
  lemma {:induction false} SnapshotIsHarmless(binding: Value, environment: Value, before: Value, service: bool)
    requires Harmless(binding) && Harmless(environment) && BeforeOk(before)
    ensures Harmless(SnapshotFor(binding, environment, before, service))
  {
    StateFits(BEFORE_STATE, before, 1);
  }

  /** The two healthy snapshots of a plan fit it. */
  lemma {:induction false} HealthySnapshots(binding: Value, environment: Value, before: Value, now: Value)
    requires EnvironmentOk(environment, binding, now) && BeforeOk(before) && Harmless(binding) && Harmless(environment)
    ensures var s := SnapshotFor(binding, environment, before, false);
            SnapshotOk(s, binding, now, false) && Get(s, ENVIRONMENT) == environment && Harmless(s)
    ensures var s := SnapshotFor(binding, environment, before, true);
            SnapshotOk(s, binding, now, true) && Get(s, ENVIRONMENT) == environment && Harmless(s)
  {
    SnapshotFits(binding, environment, before, now, false);
    SnapshotFits(binding, environment, before, now, true);
    SnapshotIsHarmless(binding, environment, before, false);
    SnapshotIsHarmless(binding, environment, before, true);
  }

  /** A plan that validates can always be simulated: with what it requires as the
      capability list and with healthy synthetic snapshots of its own environment. */
  lemma {:induction false} PlanCanBeSimulated(adapterPlan: Value, before: Value, now: Value)
    returns (capabilities: Value, provider: Value, service: Value)
    requires Validate(adapterPlan, now).Some? && BeforeOk(before)
    ensures BuildDryRun(adapterPlan, capabilities, provider, service, now).Some?
    ensures Get(service, BEFORE_STATE) == before
  {
    var plan := Validate(adapterPlan, now).value;
    var binding, environment := Get(plan, BINDING), Get(plan, ENVIRONMENT);
    AcceptedIsCanonical(adapterPlan, now);
    PlanParts(adapterPlan, now);
    capabilities := Get(plan, REQUIRED_CAPABILITIES);
    provider := SnapshotFor(binding, environment, before, false);
    service := SnapshotFor(binding, environment, before, true);
    RequiredAreKnown(Get(binding, ACTION_FAMILY));
    HealthySnapshots(binding, environment, before, now);
    ServiceFields(binding, environment, before);
    FittingIsBuilt(adapterPlan, capabilities, provider, service, now);
  }

  // ------------------------------------------------------------------ the receipt

  /** The receipt of a dry run with chosen references and time, without its digest. */
  function RowBody(simulation: Value, dryRun: Value, received: Value, writerRef: Value, providerRef: Value): map<Key, Value> {
    map k: Key | InRow(k) && k != RECEIPT_DIGEST ::
      if k == TIMESTAMP then received else if k == WRITER_IDENTITY_REF then writerRef
      else if k == PROVIDER_IDENTITY_REF then providerRef else Bound(simulation, dryRun, k)
  }

  function RowFor(simulation: Value, dryRun: Value, received: Value, writerRef: Value, providerRef: Value): Value {
    var body := RowBody(simulation, dryRun, received, writerRef, providerRef);
    Dict(body[RECEIPT_DIGEST := Sha(Dict(body))])
  }

  lemma {:induction false} RowIsBound(
    simulation: Value, dryRun: Value, received: Value, writerRef: Value, providerRef: Value)
    ensures var row := RowFor(simulation, dryRun, received, writerRef, providerRef);
            && row.Dict? && (forall k: Key :: k in row.fields <==> InRow(k))
            && (forall k: Key | InRow(k) && !IsFree(k) :: Get(row, k) == Bound(simulation, dryRun, k))
  {
  }

  lemma {:induction false} RowIsFree(
    simulation: Value, dryRun: Value, received: Value, writerRef: Value, providerRef: Value)
    ensures var row := RowFor(simulation, dryRun, received, writerRef, providerRef);
            && Get(row, TIMESTAMP) == received && Get(row, WRITER_IDENTITY_REF) == writerRef
            && Get(row, PROVIDER_IDENTITY_REF) == providerRef
  {
  }

  lemma {:induction false} RowDigest(
    simulation: Value, dryRun: Value, received: Value, writerRef: Value, providerRef: Value)
    ensures var row := RowFor(simulation, dryRun, received, writerRef, providerRef);
            row.Dict? && Get(row, RECEIPT_DIGEST) == Sha(Dict(row.fields - {RECEIPT_DIGEST}))
  {
    var body := RowBody(simulation, dryRun, received, writerRef, providerRef);
    assert body[RECEIPT_DIGEST := Sha(Dict(body))] - {RECEIPT_DIGEST} == body;
  }

  // ---- the receipt and its evidence are safe input

  const ROW_NODES := 400

  lemma {:induction false} RowNodes(row: Value)
    requires row.Dict? && forall k: Key :: k in row.fields <==> InRow(k)
    requires forall k: Key | InRow(k) && k != BINDING && k != EVIDENCE_REFS :: IsLeaf(row.fields[k])
    requires Nodes(Get(row, BINDING)) <= BINDING_NODES && Nodes(Get(row, EVIDENCE_REFS)) <= 49
    ensures Nodes(row) <= ROW_NODES
  {
    SomeBetween(row, 0, 156);
    OneBetween(row, EVIDENCE_REFS);
    NoneBetween(row, 157, 172);
    SomeBetween(row, 172, 173);
    OneBetween(row, BINDING);
    SomeBetween(row, 174, 225);
    NoneBetween(row, 225, KEYS);
  }

  predicate IsRowDigest(k: Key) {
    || k == ADAPTER_PLAN_DIGEST || k == IDEMPOTENCY_KEY_DIGEST || k == ROLLBACK_PLAN_DIGEST
    || BEFORE_STATE_DIGEST <= k <= AFTER_STATE_DIGEST || k == COMMAND_PLAN_DIGEST || k == DRY_RUN_DIGEST
    || k == OWNER_AUTHORIZATION_DIGEST || k == RECEIPT_DIGEST
  }

  predicate IsRowFlag(k: Key) { k == SYNTHETIC || IsAdapterFalse(k) }

  predicate IsRowId(k: Key) { IsIdentity(k) || WRITER_IDENTITY_REF <= k <= PROVIDER_IDENTITY_REF }

  /** What a receipt holds under each key that is not heavy. */
  predicate RowKind(k: Key, v: Value) {
    && (IsRowDigest(k) ==> v.Sha?) && (IsRowFlag(k) ==> v.Bool?) && (k == SCHEMA ==> v.Text?)
    && (k == TIMESTAMP ==> v.Stamp?) && (IsRowId(k) ==> IsId(v) && Harmless(v))
  }

  lemma {:induction false} RowKindFits(k: Key, v: Value, room: nat)
    requires InRow(k) && k != BINDING && k != EVIDENCE_REFS && RowKind(k, v)
    ensures Fits(k, v, room) && IsLeaf(v)
  {
    assert IsRowDigest(k) || IsRowFlag(k) || k == SCHEMA || k == TIMESTAMP || IsRowId(k);
    assert Typed(k, v);
  }

  lemma {:induction false} RowAs(row: Value)
    requires row.Dict? && forall k: Key :: k in row.fields <==> InRow(k)
    requires forall k: Key | InRow(k) && k != BINDING && k != EVIDENCE_REFS :: RowKind(k, Get(row, k))
    requires Fits(BINDING, Get(row, BINDING), 10) && Nodes(Get(row, BINDING)) <= BINDING_NODES
    requires Fits(EVIDENCE_REFS, Get(row, EVIDENCE_REFS), 10) && Nodes(Get(row, EVIDENCE_REFS)) <= 49
    ensures FitsInList(row) && Nodes(row) <= ROW_NODES
  {
    forall k: Key | k in row.fields
      ensures Fits(k, row.fields[k], 10) && (k != BINDING && k != EVIDENCE_REFS ==> IsLeaf(row.fields[k]))
    {
      assert row.fields[k] == Get(row, k);
      if k != BINDING && k != EVIDENCE_REFS { RowKindFits(k, Get(row, k), 10); }
    }
    DictFits(row, 11);
    RowNodes(row);
  }

  /** What a receipt takes from a simulation. */
  predicate Receivable(simulation: Value) {
    var binding := Get(simulation, BINDING);
    && Get(simulation, ADAPTER_PLAN_DIGEST).Sha? && Get(simulation, IDEMPOTENCY_KEY_DIGEST).Sha?
    && Get(simulation, ROLLBACK_PLAN_DIGEST).Sha? && Get(simulation, BEFORE_STATE_DIGEST).Sha?
    && Get(simulation, AFTER_STATE_DIGEST).Sha? && Get(binding, COMMAND_PLAN_DIGEST).Sha?
    && (forall k: Key | IsIdentity(k) :: IsId(Get(binding, k)) && Harmless(Get(binding, k)))
    && Fits(BINDING, binding, 10) && Nodes(binding) <= BINDING_NODES
    && Fits(EVIDENCE_REFS, Get(simulation, EVIDENCE_REFS), 10) && Nodes(Get(simulation, EVIDENCE_REFS)) <= 49
  }

  lemma {:induction false} BoundDigests(simulation: Value, dryRun: Value, k: Key)
    requires Receivable(simulation) && Get(dryRun, DRY_RUN_DIGEST).Sha? && IsRowDigest(k) && k != RECEIPT_DIGEST
    ensures Bound(simulation, dryRun, k).Sha?
  {
  }

  lemma {:induction false} BoundRest(simulation: Value, dryRun: Value, k: Key)
    ensures IsRowFlag(k) ==> Bound(simulation, dryRun, k).Bool?
    ensures k == SCHEMA ==> Bound(simulation, dryRun, k).Text?
    ensures IsIdentity(k) ==> Bound(simulation, dryRun, k) == Get(Get(simulation, BINDING), k)
    ensures k == BINDING || k == EVIDENCE_REFS ==> Bound(simulation, dryRun, k) == Get(simulation, k)
  {
  }

  lemma {:induction false} RowKinds(
    simulation: Value, dryRun: Value, received: Value, writerRef: Value, providerRef: Value, k: Key)
    requires Receivable(simulation) && Get(dryRun, DRY_RUN_DIGEST).Sha? && received.Stamp?
    requires IsId(writerRef) && Harmless(writerRef) && IsId(providerRef) && Harmless(providerRef)
    requires InRow(k) && k != BINDING && k != EVIDENCE_REFS
    ensures RowKind(k, Get(RowFor(simulation, dryRun, received, writerRef, providerRef), k))
  {
    var row := RowFor(simulation, dryRun, received, writerRef, providerRef);
    RowIsFree(simulation, dryRun, received, writerRef, providerRef);
    RowDigest(simulation, dryRun, received, writerRef, providerRef);
    if !IsFree(k) {
      RowIsBound(simulation, dryRun, received, writerRef, providerRef);
      BoundRest(simulation, dryRun, k);
      if IsRowDigest(k) { BoundDigests(simulation, dryRun, k); }
      BoundKind(k, Get(row, k), simulation, dryRun);
    } else {
      FreeKind(k, Get(row, k), received, writerRef, providerRef);
    }
  }

  lemma {:induction false} BoundKind(k: Key, v: Value, simulation: Value, dryRun: Value)
    requires Receivable(simulation) && !IsFree(k) && (IsRowDigest(k) ==> v.Sha?) && (IsRowFlag(k) ==> v.Bool?)
    requires (k == SCHEMA ==> v.Text?) && (IsIdentity(k) ==> v == Get(Get(simulation, BINDING), k))
    ensures RowKind(k, v)
  {
  }

  lemma {:induction false} FreeKind(k: Key, v: Value, received: Value, writerRef: Value, providerRef: Value)
    requires IsFree(k) && received.Stamp?
    requires IsId(writerRef) && Harmless(writerRef) && IsId(providerRef) && Harmless(providerRef)
    requires k == TIMESTAMP ==> v == received
    requires (k == WRITER_IDENTITY_REF ==> v == writerRef) && (k == PROVIDER_IDENTITY_REF ==> v == providerRef)
    requires k == RECEIPT_DIGEST ==> v.Sha?
    ensures RowKind(k, v)
  {
  }

  /** A receipt with harmless references is in order. */
  lemma {:induction false} RowIsSafe(
    simulation: Value, dryRun: Value, received: Value, writerRef: Value, providerRef: Value)
    requires Receivable(simulation) && Get(dryRun, DRY_RUN_DIGEST).Sha? && received.Stamp?
    requires IsId(writerRef) && Harmless(writerRef) && IsId(providerRef) && Harmless(providerRef)
    ensures var row := RowFor(simulation, dryRun, received, writerRef, providerRef);
            FitsInList(row) && Nodes(row) <= ROW_NODES
  {
    var row := RowFor(simulation, dryRun, received, writerRef, providerRef);
    RowIsBound(simulation, dryRun, received, writerRef, providerRef);
    BoundRest(simulation, dryRun, BINDING);
    BoundRest(simulation, dryRun, EVIDENCE_REFS);
    forall k: Key | InRow(k) && k != BINDING && k != EVIDENCE_REFS
      ensures RowKind(k, Get(row, k))
    {
      RowKinds(simulation, dryRun, received, writerRef, providerRef, k);
    }
    RowAs(row);
  }

  lemma {:induction false} ReceivableDigests(
    plan: Value, supplied: seq<Value>, provider: Value, service: Value, now: Value)
    requires Simulable(plan, provider, service, now)
    ensures var simulation := Simulation(plan, supplied, provider, service, now);
            && Get(simulation, ADAPTER_PLAN_DIGEST).Sha? && Get(simulation, IDEMPOTENCY_KEY_DIGEST).Sha?
            && Get(simulation, ROLLBACK_PLAN_DIGEST).Sha? && Get(simulation, BEFORE_STATE_DIGEST).Sha?
            && Get(simulation, AFTER_STATE_DIGEST).Sha?
  {
  }

  lemma {:induction false} ReceivableLists(
    plan: Value, supplied: seq<Value>, provider: Value, service: Value, now: Value)
    ensures var simulation := Simulation(plan, supplied, provider, service, now);
            && Get(simulation, BINDING) == Get(plan, BINDING)
            && Get(simulation, EVIDENCE_REFS) == List(Distinct(AllRefs(plan, provider, service)))
  {
  }

  lemma {:induction false} BindingIsReceivable(binding: Value)
    requires BindingOk(binding) && Harmless(binding)
    ensures Get(binding, COMMAND_PLAN_DIGEST).Sha? && Fits(BINDING, binding, 10) && Nodes(binding) <= BINDING_NODES
    ensures forall k: Key | IsIdentity(k) :: IsId(Get(binding, k)) && Harmless(Get(binding, k))
  {
    BindingKinds(binding);
    BindingFits(binding, 10);
    forall k: Key | IsIdentity(k) ensures Harmless(Get(binding, k)) { HarmlessField(binding, k); }
  }

  lemma {:induction false} RefsAreReceivable(refs: seq<Value>)
    requires |refs| <= 48 && forall i | 0 <= i < |refs| :: ListItem(refs[i])
    ensures var v := List(Distinct(refs)); Fits(EVIDENCE_REFS, v, 10) && Nodes(v) <= 49
  {
    DistinctItems(refs);
    LeafListFits(EVIDENCE_REFS, List(Distinct(refs)), 10);
  }

  lemma {:induction false} SimulationIsReceivable(
    adapterPlan: Value, capabilities: Value, provider: Value, service: Value, now: Value)
    requires BuildDryRun(adapterPlan, capabilities, provider, service, now).Some?
    ensures Receivable(Simulation(Validate(adapterPlan, now).value, capabilities.items, provider, service, now))
  {
    var plan := Validate(adapterPlan, now).value;
    BuiltFits(adapterPlan, capabilities, provider, service, now);
    PlanParts(adapterPlan, now);
    PlanIsSimulable(adapterPlan, provider, service, now);
    RefsOfAll(adapterPlan, provider, service, now);
    BindingIsReceivable(Get(plan, BINDING));
    RefsAreReceivable(AllRefs(plan, provider, service));
    ReceivableDigests(plan, capabilities.items, provider, service, now);
    ReceivableLists(plan, capabilities.items, provider, service, now);
  }

  lemma {:induction false} SixAreSafe(a: Value, b: Value, c: Value, d: Value, e: Value, f: Value)
    requires FitsInList(a) && FitsInList(b) && FitsInList(c) && FitsInList(d) && FitsInList(e) && FitsInList(f)
    requires Nodes(a) + Nodes(b) + Nodes(c) + Nodes(d) + Nodes(e) + Nodes(f) < 4096
    ensures SafeInput(List([a, b, c, d, e, f]))
  {
    SixNodes(a, b, c, d, e, f);
    InputsAreSafe([a, b, c, d, e, f]);
  }

  lemma {:induction false} FirstIsHarmless(a: Value, b: Value, c: Value, d: Value, e: Value, f: Value)
    requires SafeInput(List([a, b, c, d, e, f]))
    ensures Harmless(a)
  {
    assert List([a, b, c, d, e, f]).items[0] == a;
  }

  /** Everything that a receipt is checked against is in order once the dry run validates. */
  lemma {:induction false} EvidenceFits(adapterPlan: Value, capabilities: Value, provider: Value, service: Value, now: Value)
    requires BuildDryRun(adapterPlan, capabilities, provider, service, now).Some?
    ensures FitsInList(adapterPlan) && FitsInList(capabilities) && FitsInList(provider) && FitsInList(service)
    ensures Nodes(adapterPlan) <= READY_NODES && Nodes(capabilities) <= 31
    ensures Nodes(provider) <= SNAPSHOT_NODES && Nodes(service) <= SNAPSHOT_NODES
  {
    var binding := Get(Validate(adapterPlan, now).value, BINDING);
    BuiltFits(adapterPlan, capabilities, provider, service, now);
    AcceptedFits(adapterPlan, now);
    KnownListIsSafe(capabilities);
    SnapshotIsSafe(provider, binding, now, false);
    SnapshotIsSafe(service, binding, now, true);
  }

  lemma {:induction false} RowIsSafeWith(e: Evidence, observed: Value, row: Value)
    requires BuildDryRun(e.plan, e.capabilities, e.provider, e.service, observed) == Some(e.dryRun)
    requires FitsInList(row) && Nodes(row) <= ROW_NODES
    ensures SafeInput(List([row, e.plan, e.dryRun, e.capabilities, e.provider, e.service]))
  {
    EvidenceFits(e.plan, e.capabilities, e.provider, e.service, observed);
    BuiltIsSafe(e.plan, e.capabilities, e.provider, e.service, observed);
    SixAreSafe(row, e.plan, e.dryRun, e.capabilities, e.provider, e.service);
  }

  lemma {:induction false} WindowIsWhole(e: Evidence)
    requires SimulationOf(e).Some?
    ensures var simulation := SimulationOf(e).value;
            IsWhole(Get(simulation, OBSERVED_AT)) && IsWhole(Get(simulation, EXPIRES_AT))
  {
    var observed := Get(Get(e.dryRun, SIMULATION), OBSERVED_AT);
    ValidatedSimulation(e.dryRun, e.plan, e.capabilities, e.provider, e.service, observed);
    SimulationWindow(e.plan, e.capabilities, e.provider, e.service, observed);
  }

  lemma {:induction false} ValidatedIsReceivable(e: Evidence)
    requires SimulationOf(e).Some?
    ensures Receivable(SimulationOf(e).value) && Get(e.dryRun, DRY_RUN_DIGEST).Sha?
  {
    var observed := Get(Get(e.dryRun, SIMULATION), OBSERVED_AT);
    ValidatedSimulation(e.dryRun, e.plan, e.capabilities, e.provider, e.service, observed);
    SimulationIsReceivable(e.plan, e.capabilities, e.provider, e.service, observed);
    DryRunParts(SimulationOf(e).value);
  }

  /** The canonical receipt: it fits the simulation, and it is in order when its references
      are harmless. */
  lemma {:induction false} CanonicalRow(
    simulation: Value, dryRun: Value, received: Value, writerRef: Value, providerRef: Value) returns (row: Value)
    requires SyntheticRef(writerRef) && SyntheticRef(providerRef) && received.Stamp?
    requires Receivable(simulation) && Get(dryRun, DRY_RUN_DIGEST).Sha?
    ensures RowFits(row, simulation, dryRun) && Get(row, TIMESTAMP) == received
    ensures Get(row, WRITER_IDENTITY_REF) == writerRef && Get(row, PROVIDER_IDENTITY_REF) == providerRef
    ensures Harmless(writerRef) && Harmless(providerRef) ==> FitsInList(row) && Nodes(row) <= ROW_NODES
  {
    row := RowFor(simulation, dryRun, received, writerRef, providerRef);
    RowIsBound(simulation, dryRun, received, writerRef, providerRef);
    RowIsFree(simulation, dryRun, received, writerRef, providerRef);
    RowDigest(simulation, dryRun, received, writerRef, providerRef);
    if Harmless(writerRef) && Harmless(providerRef) {
      RowIsSafe(simulation, dryRun, received, writerRef, providerRef);
    }
  }

  /** A fitting receipt is safe beside its evidence exactly when it is in order itself. */
  lemma {:induction false} RowDecides(e: Evidence, row: Value)
    requires SimulationOf(e).Some?
    requires Harmless(Get(row, WRITER_IDENTITY_REF)) && Harmless(Get(row, PROVIDER_IDENTITY_REF)) ==>
               FitsInList(row) && Nodes(row) <= ROW_NODES
    ensures SafeInput(List([row, e.plan, e.dryRun, e.capabilities, e.provider, e.service])) <==>
            Harmless(Get(row, WRITER_IDENTITY_REF)) && Harmless(Get(row, PROVIDER_IDENTITY_REF))
  {
    var observed := Get(Get(e.dryRun, SIMULATION), OBSERVED_AT);
    if Harmless(Get(row, WRITER_IDENTITY_REF)) && Harmless(Get(row, PROVIDER_IDENTITY_REF)) {
      ValidatedSimulation(e.dryRun, e.plan, e.capabilities, e.provider, e.service, observed);
      RowIsSafeWith(e, observed, row);
    } else if SafeInput(List([row, e.plan, e.dryRun, e.capabilities, e.provider, e.service])) {
      FirstIsHarmless(row, e.plan, e.dryRun, e.capabilities, e.provider, e.service);
      HarmlessField(row, WRITER_IDENTITY_REF);
      HarmlessField(row, PROVIDER_IDENTITY_REF);
    }
  }

  /** Within the window, a fitting receipt is accepted exactly when it is safe beside its
      evidence. */
  lemma {:induction false} FittingIsAccepted(e: Evidence, simulation: Value, row: Value, now: Value)
    requires SimulationOf(e) == Some(simulation) && RowFits(row, simulation, e.dryRun) && InTime(row, simulation, now)
    ensures Accepts(row, e, now) <==> SafeInput(List([row, e.plan, e.dryRun, e.capabilities, e.provider, e.service]))
  {
  }

  lemma {:induction false} RowIsAccepted(e: Evidence, simulation: Value, row: Value, now: Value)
    requires SimulationOf(e) == Some(simulation) && RowFits(row, simulation, e.dryRun) && InTime(row, simulation, now)
    requires Harmless(Get(row, WRITER_IDENTITY_REF)) && Harmless(Get(row, PROVIDER_IDENTITY_REF)) ==>
               FitsInList(row) && Nodes(row) <= ROW_NODES
    ensures Accepts(row, e, now) <==> Harmless(Get(row, WRITER_IDENTITY_REF)) && Harmless(Get(row, PROVIDER_IDENTITY_REF))
  {
    RowDecides(e, row);
    FittingIsAccepted(e, simulation, row, now);
  }

  lemma {:induction false} RowIsInTime(e: Evidence, simulation: Value, row: Value, received: Value, now: Value)
    requires SimulationOf(e) == Some(simulation) && Get(row, TIMESTAMP) == received && IsWhole(received) && IsWhole(now)
    requires Get(simulation, OBSERVED_AT).Stamp? && Get(simulation, EXPIRES_AT).Stamp?
    requires Get(simulation, OBSERVED_AT).us <= received.us <= now.us < Get(simulation, EXPIRES_AT).us
    ensures InTime(row, simulation, now)
  {
    WindowIsWhole(e);
  }

  /** Every dry run that validates has a receipt for any second of its window and any two
      synthetic references, and the receipt is accepted from that second on if and only if
      the references are harmless texts. */
  lemma {:induction false} DryRunHasReceipt(
    e: Evidence, received: Value, writerRef: Value, providerRef: Value, now: Value)
    returns (row: Value)
    requires SimulationOf(e).Some? && SyntheticRef(writerRef) && SyntheticRef(providerRef)
    requires var simulation := SimulationOf(e).value;
             && IsWhole(received) && IsWhole(now) && Get(simulation, OBSERVED_AT).Stamp? && Get(simulation, EXPIRES_AT).Stamp?
             && Get(simulation, OBSERVED_AT).us <= received.us <= now.us < Get(simulation, EXPIRES_AT).us
    ensures Get(row, TIMESTAMP) == received && Get(row, WRITER_IDENTITY_REF) == writerRef
    ensures Get(row, PROVIDER_IDENTITY_REF) == providerRef
    ensures Accepts(row, e, now) <==> Harmless(writerRef) && Harmless(providerRef)
  {
    var simulation := SimulationOf(e).value;
    ValidatedIsReceivable(e);
    row := CanonicalRow(simulation, e.dryRun, received, writerRef, providerRef);
    RowIsInTime(e, simulation, row, received, now);
    RowIsAccepted(e, simulation, row, now);
  }
}
