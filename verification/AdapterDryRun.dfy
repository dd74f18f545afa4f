/** The synthetic dry run V2: a deterministic simulation rebuilt from a canonical adapter
    plan and two synthetic snapshots. */
module AdapterDryRun {
  import opened Wrappers
  import opened Records
  import opened InputGuard
  import opened AdapterPlan
  import CP = CommandPlan

  /** Every capability, in the alphabetical order of its text. */
  function Alphabet(): seq<Value> {
    [Text(AccessLifecyclePlan), Text(AccessRevocationPlan), Text(ArchiveExportBoundary), Text(BillingReviewBoundary),
     Text(CapacityPlan), Text(CapacityReview), Text(CommercialPricingPlan), Text(ContractAmendmentBoundary),
     Text(ContractChange), Text(ContractContinuity), Text(CustomerImpactReview), Text(CustomerNoticeBoundary),
     Text(DataRetention), Text(DataSafety), Text(FinopsValidation), Text(IncidentContainmentPlan),
     Text(IrreversibleActionBoundary), Text(OffboardingPlan), Text(OwnerOnlyApprovalBoundary),
     Text(PackageScopeReview), Text(PauseSequencing), Text(PricingBoundary), Text(QuotaBoundary),
     Text(RemediationReversal), Text(ReversalPath), Text(SecurityPrivacyRecheck), Text(ServiceContinuity),
     Text(ServiceHealthRecheck), Text(ServiceRemediationPlan), Text(TerminationSequencingPlan)]
  }

  /** `sorted(set(required) & set(supplied))`. */
  function Common(alphabet: seq<Value>, required: seq<Value>, supplied: seq<Value>): seq<Value> {
    if alphabet == [] then []
    else
      var c := alphabet[|alphabet| - 1];
      Common(alphabet[..|alphabet| - 1], required, supplied) + if c in required && c in supplied then [c] else []
  }

  /** A list of distinct known capabilities. */
  predicate CapabilitiesKnown(v: Value) {
    && v.List? && |v.items| <= |Alphabet()| && (forall i | 0 <= i < |v.items| :: v.items[i] in Alphabet())
    && (forall i, j | 0 <= i < j < |v.items| :: v.items[i] != v.items[j])
  }

  predicate Covers(supplied: seq<Value>, required: seq<Value>) {
    forall i | 0 <= i < |required| :: required[i] in supplied
  }

  function ItemsOf(v: Value): seq<Value> { if v.List? then v.items else [] }

  // ------------------------------------------------------------------- the snapshots

  predicate InSnapshot(k: Key, service: bool) {
    || k == SCHEMA || k == SYNTHETIC || k == BINDING || k == ENVIRONMENT || k == SNAPSHOT_STATE_DIGEST
    || (service && CONTRACT_STATE <= k <= BEFORE_STATE)
  }

  predicate BeforeOk(before: Value) {
    && before.Dict? && before.fields.Keys == {STAGING_REVISION, CHANGE_PENDING}
    && Get(before, STAGING_REVISION).Int? && 0 <= Get(before, STAGING_REVISION).n < 1_000_000_000
    && Get(before, CHANGE_PENDING) == Bool(false)
  }

  /** `_snapshot_blockers_v2` finds nothing. */
  predicate SnapshotOk(s: Value, binding: Value, now: Value, service: bool) {
    && s.Dict? && (forall k: Key :: k in s.fields <==> InSnapshot(k, service))
    && Get(s, SCHEMA) == Text(if service then ServiceSchema else SnapshotSchema) && Get(s, SYNTHETIC) == Bool(true)
    && Get(s, BINDING) == binding && EnvironmentOk(Get(s, ENVIRONMENT), binding, now)
    && Get(s, SNAPSHOT_STATE_DIGEST) == Sha(Dict(s.fields - {SNAPSHOT_STATE_DIGEST}))
    && (service ==> Get(s, CONTRACT_STATE) == Text(SyntheticValid) && Get(s, SERVICE_STATE) == Text(SyntheticHealthy)
                    && BeforeOk(Get(s, BEFORE_STATE)))
  }

  // ------------------------------------------------------------------ the simulation

  function After(before: Value): Value {
    var revision := Get(before, STAGING_REVISION);
    Dict(map[STAGING_REVISION := Int(if revision.Int? then revision.n + 1 else 0), CHANGE_PENDING := Bool(true)])
  }

  /** The distinct references in the order in which they are first seen. */
  function Distinct(refs: seq<Value>): seq<Value> {
    if refs == [] then []
    else
      var before, last := Distinct(refs[..|refs| - 1]), refs[|refs| - 1];
      if last in before then before else before + [last]
  }

  function EnvironmentRefs(row: Value): seq<Value> { ItemsOf(Get(Get(row, ENVIRONMENT), EVIDENCE_REFS)) }

  function Expiry(row: Value): Value { Get(Get(row, ENVIRONMENT), EXPIRES_AT) }

  function Earlier(a: Value, b: Value): Value { if a.Stamp? && b.Stamp? && b.us < a.us then b else a }

  predicate InSimulation(k: Key) {
    || k == ACTION_FAMILY || k == EXPIRES_AT || SCOPE_SOURCE <= k <= OPERATION_KIND_SOURCE || k == EVIDENCE_REFS
    || k == COMMAND_PLAN_SCHEMA || ADAPTER_PLAN_DIGEST <= k <= ADAPTER_KIND || k == IDEMPOTENCY_KEY_DIGEST
    || k == ROLLBACK_PLAN_DIGEST || k == FINOPS_CAP_CENTS || k == SYNTHETIC
    || CONTRACT_VERSION <= k <= OBSERVED_AT || MISSING_CAPABILITIES <= k <= EXPECTED_FINOPS_IMPACT || IsAdapterFalse(k)
  }

  /** One field of the simulation. */
  function SimulationField(plan: Value, coverage: seq<Value>, provider: Value, service: Value, now: Value, k: Key): Value {
    var binding, before := Get(plan, BINDING), Get(service, BEFORE_STATE);
    if k == EXPECTED_FINOPS_IMPACT then Text(NoChargeChange)
    else if k == EXPECTED_CUSTOMER_IMPACT then Text(NoCustomerChange)
    else if k == EXPECTED_MUTATIONS then List([Text(StagingChangeOnly)])
    else if k == EXPECTED_RECEIPTS then Get(plan, RECEIPT_CLASSES)
    else if k == ROLLBACK_FEASIBLE || k == IDEMPOTENCY_READY then Bool(true)
    else if k == CONFLICT_DETECTED then Bool(false)
    else if k == MISSING_CAPABILITIES then List([])
    else if k == OBSERVED_AT then now
    else if k == CONTRACT_SERVICE_DIGEST then Get(service, SNAPSHOT_STATE_DIGEST)
    else if k == PROVIDER_SNAPSHOT_DIGEST then Get(provider, SNAPSHOT_STATE_DIGEST)
    else if k == SYNTHETIC_AFTER_STATE then After(before)
    else if k == SYNTHETIC_BEFORE_STATE then before
    else if k == AFTER_STATE_DIGEST then Sha(After(before))
    else if k == BEFORE_STATE_DIGEST then Sha(before)
    else if k == CAPABILITY_COVERAGE then List(coverage)
    else if k == CONTRACT_VERSION then Text(VersionTwo)
    else if k == SYNTHETIC then Bool(true)
    else if k == PRODUCTION_MUTATION_PERFORMED then Bool(false)
    else if k == ADAPTER_PLAN_DIGEST then Sha(plan)
    else if COMMAND_PLAN_SCHEMA <= k then Get(plan, k)
    else if k == EVIDENCE_REFS then
      List(Distinct(EnvironmentRefs(plan) + EnvironmentRefs(provider) + EnvironmentRefs(service)))
    else if IsAdapterFalse(k) then Bool(false)
    else if SCOPE_SOURCE <= k then Get(plan, k)
    else if k == EXPIRES_AT then Earlier(Earlier(Expiry(plan), Expiry(provider)), Expiry(service))
    else Get(binding, ACTION_FAMILY)
  }

  function Simulation(plan: Value, supplied: seq<Value>, provider: Value, service: Value, now: Value): Value {
    var coverage := Common(Alphabet(), ItemsOf(Get(plan, REQUIRED_CAPABILITIES)), supplied);
    Dict(map k: Key | InSimulation(k) :: SimulationField(plan, coverage, provider, service, now, k))
  }

  predicate InDryRun(k: Key) {
    SCHEMA <= k <= BLOCKERS || k == SIMULATION || k == DRY_RUN_DIGEST || IsAdapterFalse(k)
  }

  function DryRunField(simulation: Value, k: Key): Value {
    if k == DRY_RUN_DIGEST then Sha(simulation)
    else if k == SIMULATION then simulation
    else if COMMAND_GENERATED <= k then Bool(false)
    else if k == BLOCKERS then List([])
    else if k == STATE then Text(DryRunReady)
    else Text(DryRunSchema)
  }

  function DryRun(simulation: Value): Value {
    Dict(map k: Key | InDryRun(k) :: DryRunField(simulation, k))
  }

  /** The two snapshots fit the plan: same binding, same environment, nothing stale. */
  predicate SnapshotsFit(plan: Value, provider: Value, service: Value, now: Value) {
    && SnapshotOk(provider, Get(plan, BINDING), now, false) && SnapshotOk(service, Get(plan, BINDING), now, true)
    && Sha(Get(provider, ENVIRONMENT)) == Get(plan, ENVIRONMENT_DIGEST)
    && Sha(Get(service, ENVIRONMENT)) == Get(plan, ENVIRONMENT_DIGEST)
  }

  /** `build_owner_renewal_action_adapter_dry_run_v2`. */
  function BuildDryRun(
    adapterPlan: Value, capabilities: Value, provider: Value, service: Value, now: Value): Option<Value>
  {
    var plan := Validate(adapterPlan, now);
    if plan.None? || !SafeInput(List([capabilities, provider, service])) then None
    else if !CapabilitiesKnown(capabilities) then None
    else if !Covers(capabilities.items, ItemsOf(Get(plan.value, REQUIRED_CAPABILITIES))) then None
    else if !SnapshotsFit(plan.value, provider, service, now) then None
    else Some(DryRun(Simulation(plan.value, capabilities.items, provider, service, now)))
  }

  /** `validate_dry_run_v2`: the simulation of a dry run that rebuilds to itself. */
  function ValidateDryRun(
    dryRun: Value, adapterPlan: Value, capabilities: Value, provider: Value, service: Value, now: Value): Option<Value>
  {
    var expected := BuildDryRun(adapterPlan, capabilities, provider, service, now);
    if !SafeInput(dryRun) || expected.None? || dryRun != expected.value then None
    else Some(Get(expected.value, SIMULATION))
  }

  // ---------------------------------------------------------------- determinism

  lemma {:induction false} CommonIsRequired(alphabet: seq<Value>, required: seq<Value>, a: seq<Value>, b: seq<Value>)
    requires Covers(a, required) && Covers(b, required)
    ensures Common(alphabet, required, a) == Common(alphabet, required, b)
  {
    if alphabet != [] {
      CommonIsRequired(alphabet[..|alphabet| - 1], required, a, b);
      var c := alphabet[|alphabet| - 1];
      if c in required {
        var i :| 0 <= i < |required| && required[i] == c;
        assert required[i] in a && required[i] in b;
      }
    }
  }

  lemma {:induction false} SameSimulation(
    plan: Value, a: seq<Value>, b: seq<Value>, provider: Value, service: Value, now: Value)
    requires Covers(a, ItemsOf(Get(plan, REQUIRED_CAPABILITIES))) && Covers(b, ItemsOf(Get(plan, REQUIRED_CAPABILITIES)))
    ensures Simulation(plan, a, provider, service, now) == Simulation(plan, b, provider, service, now)
  {
    CommonIsRequired(Alphabet(), ItemsOf(Get(plan, REQUIRED_CAPABILITIES)), a, b);
  }

  // ------------------------------------------------ what is built is safe input

  const SIMULATION_NODES := 420
  const DRY_RUN_NODES := 700

  /** What a simulation takes from a validated plan and two snapshots, by kind. */
  predicate Simulable(plan: Value, provider: Value, service: Value, now: Value) {
    && Get(plan, SCOPE_SOURCE).Text? && Get(plan, OPERATION_KIND_SOURCE).Text? && Get(plan, COMMAND_PLAN_SCHEMA).Text?
    && Get(plan, ADAPTER_KIND).Text? && Get(plan, IDEMPOTENCY_KEY_DIGEST).Sha? && Get(plan, ROLLBACK_PLAN_DIGEST).Sha?
    && Get(plan, FINOPS_CAP_CENTS) == Int(FINOPS_CAP)
    && IsId(Get(Get(plan, BINDING), ACTION_FAMILY)) && Harmless(Get(Get(plan, BINDING), ACTION_FAMILY))
    && Get(provider, SNAPSHOT_STATE_DIGEST).Sha? && Get(service, SNAPSHOT_STATE_DIGEST).Sha?
    && now.Stamp? && Expiry(plan).Stamp? && Expiry(provider).Stamp? && Expiry(service).Stamp?
  }

  predicate IsSimulationHeavy(k: Key) {
    || k == EVIDENCE_REFS || k == BINDING || k == CAPABILITY_COVERAGE || SYNTHETIC_BEFORE_STATE <= k <= SYNTHETIC_AFTER_STATE
    || k == MISSING_CAPABILITIES || EXPECTED_RECEIPTS <= k <= EXPECTED_MUTATIONS
  }

  predicate IsSimulationLeaf(k: Key) { InSimulation(k) && !IsSimulationHeavy(k) }

  predicate IsSimulationDigest(k: Key) {
    || k == ADAPTER_PLAN_DIGEST || k == IDEMPOTENCY_KEY_DIGEST || k == ROLLBACK_PLAN_DIGEST
    || BEFORE_STATE_DIGEST <= k <= AFTER_STATE_DIGEST || PROVIDER_SNAPSHOT_DIGEST <= k <= CONTRACT_SERVICE_DIGEST
  }

  predicate IsSimulationWord(k: Key) {
    || SCOPE_SOURCE <= k <= OPERATION_KIND_SOURCE || k == COMMAND_PLAN_SCHEMA || k == ADAPTER_KIND
    || k == CONTRACT_VERSION || EXPECTED_CUSTOMER_IMPACT <= k <= EXPECTED_FINOPS_IMPACT
  }

  predicate IsSimulationTime(k: Key) { k == EXPIRES_AT || k == OBSERVED_AT }

  predicate IsSimulationFlag(k: Key) {
    k == SYNTHETIC || CONFLICT_DETECTED <= k <= IDEMPOTENCY_READY || IsAdapterFalse(k)
  }

  predicate HasKind(k: Key, v: Value) {
    && (IsSimulationDigest(k) ==> v.Sha?) && (IsSimulationWord(k) ==> v.Text?) && (IsSimulationTime(k) ==> v.Stamp?)
    && (IsSimulationFlag(k) ==> v.Bool?) && (k == FINOPS_CAP_CENTS ==> v == Int(FINOPS_CAP))
    && (k == ACTION_FAMILY ==> IsId(v) && Harmless(v))
  }

  lemma {:induction false} SimulationLeafKinds(k: Key)
    requires IsSimulationLeaf(k)
    ensures || IsSimulationDigest(k) || IsSimulationWord(k) || IsSimulationTime(k) || IsSimulationFlag(k)
            || k == FINOPS_CAP_CENTS || k == ACTION_FAMILY
  {
  }

  lemma {:induction false} KindFits(k: Key, v: Value, room: nat)
    requires IsSimulationLeaf(k) && HasKind(k, v)
    ensures Fits(k, v, room) && IsLeaf(v)
  {
    SimulationLeafKinds(k);
    assert Typed(k, v);
  }

  lemma {:induction false} SimulationDigests(
    plan: Value, coverage: seq<Value>, provider: Value, service: Value, now: Value, k: Key)
    requires Simulable(plan, provider, service, now) && IsSimulationDigest(k)
    ensures SimulationField(plan, coverage, provider, service, now, k).Sha?
  {
  }

  lemma {:induction false} SimulationWords(
    plan: Value, coverage: seq<Value>, provider: Value, service: Value, now: Value, k: Key)
    requires Simulable(plan, provider, service, now) && IsSimulationWord(k)
    ensures SimulationField(plan, coverage, provider, service, now, k).Text?
  {
  }

  lemma {:induction false} SimulationFlags(
    plan: Value, coverage: seq<Value>, provider: Value, service: Value, now: Value, k: Key)
    requires IsSimulationFlag(k)
    ensures SimulationField(plan, coverage, provider, service, now, k).Bool?
  {
  }

  lemma {:induction false} SimulationOthers(
    plan: Value, coverage: seq<Value>, provider: Value, service: Value, now: Value)
    requires Simulable(plan, provider, service, now)
    ensures SimulationField(plan, coverage, provider, service, now, EXPIRES_AT).Stamp?
    ensures SimulationField(plan, coverage, provider, service, now, OBSERVED_AT) == now
    ensures SimulationField(plan, coverage, provider, service, now, FINOPS_CAP_CENTS) == Int(FINOPS_CAP)
    ensures SimulationField(plan, coverage, provider, service, now, ACTION_FAMILY) == Get(Get(plan, BINDING), ACTION_FAMILY)
  {
  }

  lemma {:induction false} SimulationLeafFits(
    plan: Value, coverage: seq<Value>, provider: Value, service: Value, now: Value, k: Key, room: nat)
    requires Simulable(plan, provider, service, now) && IsSimulationLeaf(k)
    ensures var v := SimulationField(plan, coverage, provider, service, now, k); Fits(k, v, room) && IsLeaf(v)
  {
    if IsSimulationDigest(k) { SimulationDigests(plan, coverage, provider, service, now, k); }
    if IsSimulationWord(k) { SimulationWords(plan, coverage, provider, service, now, k); }
    if IsSimulationFlag(k) { SimulationFlags(plan, coverage, provider, service, now, k); }
    SimulationOthers(plan, coverage, provider, service, now);
    KindFits(k, SimulationField(plan, coverage, provider, service, now, k), room);
  }

  // ---- the lists and states of a simulation

  /** A reference or word that may stand in a list. */
  predicate ListItem(v: Value) { IsLeaf(v) && !v.Int? && Harmless(v) }

  lemma {:induction false} DistinctItems(refs: seq<Value>)
    requires forall i | 0 <= i < |refs| :: ListItem(refs[i])
    ensures |Distinct(refs)| <= |refs| && forall i | 0 <= i < |Distinct(refs)| :: ListItem(Distinct(refs)[i])
  {
    if refs != [] { DistinctItems(refs[..|refs| - 1]); }
  }

  lemma {:induction false} CommonWords(alphabet: seq<Value>, required: seq<Value>, supplied: seq<Value>)
    requires forall i | 0 <= i < |alphabet| :: alphabet[i].Text?
    ensures var common := Common(alphabet, required, supplied);
            |common| <= |alphabet| && forall i | 0 <= i < |common| :: common[i].Text?
  {
    if alphabet != [] { CommonWords(alphabet[..|alphabet| - 1], required, supplied); }
  }

  lemma {:induction false} AlphabetIsWords()
    ensures |Alphabet()| == 30 && forall i | 0 <= i < |Alphabet()| :: Alphabet()[i].Text?
  {
  }

  /** The references of an environment that fits. */
  lemma {:induction false} RefItems(row: Value, binding: Value)
    requires EnvironmentFits(Get(row, ENVIRONMENT), binding) && Harmless(Get(row, ENVIRONMENT))
    ensures var refs := EnvironmentRefs(row); |refs| <= 16 && forall i | 0 <= i < |refs| :: ListItem(refs[i])
  {
    var refs := Get(Get(row, ENVIRONMENT), EVIDENCE_REFS);
    HarmlessField(Get(row, ENVIRONMENT), EVIDENCE_REFS);
    assert RefsOk(refs);
    forall i | 0 <= i < |refs.items| ensures ListItem(refs.items[i]) { assert IsId(refs.items[i]); }
  }

  lemma {:induction false} StateNodes(state: Value)
    requires state.Dict? && state.fields.Keys == {STAGING_REVISION, CHANGE_PENDING}
    requires IsLeaf(Get(state, STAGING_REVISION)) && IsLeaf(Get(state, CHANGE_PENDING))
    ensures Nodes(state) == 3
  {
    NoneBetween(state, 0, 207);
    LeavesBetween(state, 207, 209);
    NoneBetween(state, 209, KEYS);
  }

  lemma {:induction false} StateFits(k: Key, state: Value, room: nat)
    requires state.Dict? && state.fields.Keys == {STAGING_REVISION, CHANGE_PENDING} && room >= 1
    requires Get(state, STAGING_REVISION).Int? && 0 <= Get(state, STAGING_REVISION).n <= 1_000_000_000
    requires Get(state, CHANGE_PENDING).Bool?
    requires !IsTextKey(k) && !IsIntegerKey(k) && k != SCOPE && k != BINDING
    ensures Fits(k, state, room) && Nodes(state) == 3
  {
    assert state.fields[STAGING_REVISION] == Get(state, STAGING_REVISION);
    assert state.fields[CHANGE_PENDING] == Get(state, CHANGE_PENDING);
    StateNodes(state);
  }

  /** The heavy fields of a simulation fit and stay within these bounds. */
  predicate HeavyFit(field: Key -> Value, room: nat) {
    && (forall k: Key | IsSimulationHeavy(k) :: Fits(k, field(k), room))
    && Nodes(field(EVIDENCE_REFS)) <= 49 && Nodes(field(BINDING)) <= BINDING_NODES && Nodes(field(CAPABILITY_COVERAGE)) <= 31
    && Nodes(field(SYNTHETIC_BEFORE_STATE)) <= 3 && Nodes(field(SYNTHETIC_AFTER_STATE)) <= 3
    && Nodes(field(MISSING_CAPABILITIES)) <= 1 && Nodes(field(EXPECTED_RECEIPTS)) <= 7 && Nodes(field(EXPECTED_MUTATIONS)) <= 2
  }

  lemma {:induction false} SimulationNodes(simulation: Value)
    requires simulation.Dict? && forall k: Key :: k in simulation.fields <==> InSimulation(k)
    requires forall k: Key | IsSimulationLeaf(k) :: IsLeaf(simulation.fields[k])
    requires Nodes(Get(simulation, EVIDENCE_REFS)) <= 49 && Nodes(Get(simulation, BINDING)) <= BINDING_NODES
    requires Nodes(Get(simulation, CAPABILITY_COVERAGE)) <= 31
    requires Nodes(Get(simulation, SYNTHETIC_BEFORE_STATE)) <= 3 && Nodes(Get(simulation, SYNTHETIC_AFTER_STATE)) <= 3
    requires Nodes(Get(simulation, MISSING_CAPABILITIES)) <= 1 && Nodes(Get(simulation, EXPECTED_RECEIPTS)) <= 7
    requires Nodes(Get(simulation, EXPECTED_MUTATIONS)) <= 2
    ensures Nodes(simulation) <= SIMULATION_NODES
  {
    SimulationNodesBelow(simulation);
    OneBetween(simulation, CAPABILITY_COVERAGE);
    SomeBetween(simulation, 213, 215);
    OneBetween(simulation, SYNTHETIC_BEFORE_STATE);
    OneBetween(simulation, SYNTHETIC_AFTER_STATE);
    SomeBetween(simulation, 217, 292);
    OneBetween(simulation, MISSING_CAPABILITIES);
    SomeBetween(simulation, 293, 296);
    OneBetween(simulation, EXPECTED_RECEIPTS);
    OneBetween(simulation, EXPECTED_MUTATIONS);
    SomeBetween(simulation, 298, KEYS);
  }

  lemma {:induction false} SimulationNodesBelow(simulation: Value)
    requires simulation.Dict? && forall k: Key :: k in simulation.fields <==> InSimulation(k)
    requires forall k: Key | IsSimulationLeaf(k) :: IsLeaf(simulation.fields[k])
    requires Nodes(Get(simulation, EVIDENCE_REFS)) <= 49 && Nodes(Get(simulation, BINDING)) <= BINDING_NODES
    ensures NodesBelow(simulation, 212) <= 160 + 49 + 40 + BINDING_NODES
  {
    SomeBetween(simulation, 0, 36);
    NoneBetween(simulation, 36, 41);
    SomeBetween(simulation, 41, 156);
    OneBetween(simulation, EVIDENCE_REFS);
    NoneBetween(simulation, 157, 170);
    SomeBetween(simulation, 170, 173);
    OneBetween(simulation, BINDING);
    SomeBetween(simulation, 174, 191);
    NoneBetween(simulation, 192, 211);
    SomeBetween(simulation, 191, 192);
    SomeBetween(simulation, 211, 212);
  }

  lemma {:induction false} SimulationAs(simulation: Value, field: Key -> Value, room: nat)
    requires simulation.Dict? && (forall k: Key :: k in simulation.fields <==> InSimulation(k)) && room >= 1
    requires forall k: Key | InSimulation(k) :: simulation.fields[k] == Get(simulation, k) == field(k)
    requires forall k: Key | IsSimulationLeaf(k) :: Fits(k, field(k), room - 1) && IsLeaf(field(k))
    requires HeavyFit(field, room - 1)
    ensures Fits(SIMULATION, simulation, room) && Nodes(simulation) <= SIMULATION_NODES
  {
    FilledFits(simulation, InSimulation, field, room);
    SimulationNodes(simulation);
  }

  lemma {:induction false} SimulationIsFilled(
    plan: Value, supplied: seq<Value>, provider: Value, service: Value, now: Value, coverage: seq<Value>,
    field: Key -> Value)
    requires coverage == Common(Alphabet(), ItemsOf(Get(plan, REQUIRED_CAPABILITIES)), supplied)
    requires field == (k => SimulationField(plan, coverage, provider, service, now, k))
    ensures var simulation := Simulation(plan, supplied, provider, service, now);
            && simulation.Dict? && (forall k: Key :: k in simulation.fields <==> InSimulation(k))
            && forall k: Key | InSimulation(k) :: simulation.fields[k] == Get(simulation, k) == field(k)
  {
  }

  function AllRefs(plan: Value, provider: Value, service: Value): seq<Value> {
    EnvironmentRefs(plan) + EnvironmentRefs(provider) + EnvironmentRefs(service)
  }

  lemma {:induction false} SimulationHeavy(
    plan: Value, coverage: seq<Value>, provider: Value, service: Value, now: Value, field: Key -> Value)
    requires field == (k => SimulationField(plan, coverage, provider, service, now, k))
    ensures field(EVIDENCE_REFS) == List(Distinct(AllRefs(plan, provider, service)))
    ensures field(BINDING) == Get(plan, BINDING) && field(CAPABILITY_COVERAGE) == List(coverage)
    ensures field(SYNTHETIC_BEFORE_STATE) == Get(service, BEFORE_STATE)
    ensures field(SYNTHETIC_AFTER_STATE) == After(Get(service, BEFORE_STATE))
    ensures field(MISSING_CAPABILITIES) == List([]) && field(EXPECTED_RECEIPTS) == Get(plan, RECEIPT_CLASSES)
    ensures field(EXPECTED_MUTATIONS) == List([Text(StagingChangeOnly)])
  {
  }

  lemma {:induction false} StatesFit(before: Value, room: nat)
    requires BeforeOk(before) && room >= 1
    ensures Fits(SYNTHETIC_BEFORE_STATE, before, room) && Nodes(before) == 3
    ensures Fits(SYNTHETIC_AFTER_STATE, After(before), room) && Nodes(After(before)) == 3
  {
    StateFits(SYNTHETIC_BEFORE_STATE, before, room);
    StateFits(SYNTHETIC_AFTER_STATE, After(before), room);
  }

  lemma {:induction false} WordListFits(k: Key, v: Value, words: seq<Value>, room: nat)
    requires v == List(words) && (forall i | 0 <= i < |words| :: words[i].Text?) && room >= 1
    requires k == CAPABILITY_COVERAGE || k == MISSING_CAPABILITIES || EXPECTED_RECEIPTS <= k <= EXPECTED_MUTATIONS
    ensures Fits(k, v, room) && Nodes(v) == 1 + |words|
  {
    WordsFit(k, v, room);
  }

  lemma {:induction false} WordListsFit(field: Key -> Value, coverage: seq<Value>, room: nat)
    requires field(CAPABILITY_COVERAGE) == List(coverage) && |coverage| <= 30
    requires forall i | 0 <= i < |coverage| :: coverage[i].Text?
    requires field(MISSING_CAPABILITIES) == List([]) && field(EXPECTED_RECEIPTS) == List([Text(DryRunReceipt)])
    requires field(EXPECTED_MUTATIONS) == List([Text(StagingChangeOnly)]) && room >= 1
    ensures Fits(CAPABILITY_COVERAGE, field(CAPABILITY_COVERAGE), room) && Nodes(field(CAPABILITY_COVERAGE)) <= 31
    ensures Fits(MISSING_CAPABILITIES, field(MISSING_CAPABILITIES), room) && Nodes(field(MISSING_CAPABILITIES)) <= 1
    ensures Fits(EXPECTED_RECEIPTS, field(EXPECTED_RECEIPTS), room) && Nodes(field(EXPECTED_RECEIPTS)) <= 7
    ensures Fits(EXPECTED_MUTATIONS, field(EXPECTED_MUTATIONS), room) && Nodes(field(EXPECTED_MUTATIONS)) <= 2
  {
    WordListFits(CAPABILITY_COVERAGE, field(CAPABILITY_COVERAGE), coverage, room);
    WordListFits(MISSING_CAPABILITIES, field(MISSING_CAPABILITIES), [], room);
    WordListFits(EXPECTED_RECEIPTS, field(EXPECTED_RECEIPTS), [Text(DryRunReceipt)], room);
    WordListFits(EXPECTED_MUTATIONS, field(EXPECTED_MUTATIONS), [Text(StagingChangeOnly)], room);
  }

  lemma {:induction false} HeavyFieldsFit(
    field: Key -> Value, refs: seq<Value>, binding: Value, coverage: seq<Value>, before: Value, room: nat)
    requires field(EVIDENCE_REFS) == List(Distinct(refs)) && |refs| <= 48
    requires forall i | 0 <= i < |refs| :: ListItem(refs[i])
    requires field(BINDING) == binding && Fits(BINDING, binding, room) && Nodes(binding) <= BINDING_NODES
    requires field(CAPABILITY_COVERAGE) == List(coverage) && |coverage| <= 30
    requires forall i | 0 <= i < |coverage| :: coverage[i].Text?
    requires field(SYNTHETIC_BEFORE_STATE) == before && field(SYNTHETIC_AFTER_STATE) == After(before) && BeforeOk(before)
    requires field(MISSING_CAPABILITIES) == List([]) && field(EXPECTED_RECEIPTS) == List([Text(DryRunReceipt)])
    requires field(EXPECTED_MUTATIONS) == List([Text(StagingChangeOnly)]) && room >= 1
    ensures HeavyFit(field, room)
  {
    RefListFits(field(EVIDENCE_REFS), refs, room);
    WordListsFit(field, coverage, room);
    StatesFit(before, room);
    HeavyParts(field, room);
  }

  lemma {:induction false} RefListFits(v: Value, refs: seq<Value>, room: nat)
    requires v == List(Distinct(refs)) && |refs| <= 48 && room >= 1 && forall i | 0 <= i < |refs| :: ListItem(refs[i])
    ensures Fits(EVIDENCE_REFS, v, room) && Nodes(v) <= 49
  {
    DistinctItems(refs);
    LeafListFits(EVIDENCE_REFS, v, room);
  }

  lemma {:induction false} HeavyParts(field: Key -> Value, room: nat)
    requires Fits(EVIDENCE_REFS, field(EVIDENCE_REFS), room) && Nodes(field(EVIDENCE_REFS)) <= 49
    requires Fits(BINDING, field(BINDING), room) && Nodes(field(BINDING)) <= BINDING_NODES
    requires Fits(CAPABILITY_COVERAGE, field(CAPABILITY_COVERAGE), room) && Nodes(field(CAPABILITY_COVERAGE)) <= 31
    requires Fits(SYNTHETIC_BEFORE_STATE, field(SYNTHETIC_BEFORE_STATE), room) && Nodes(field(SYNTHETIC_BEFORE_STATE)) <= 3
    requires Fits(SYNTHETIC_AFTER_STATE, field(SYNTHETIC_AFTER_STATE), room) && Nodes(field(SYNTHETIC_AFTER_STATE)) <= 3
    requires Fits(MISSING_CAPABILITIES, field(MISSING_CAPABILITIES), room) && Nodes(field(MISSING_CAPABILITIES)) <= 1
    requires Fits(EXPECTED_RECEIPTS, field(EXPECTED_RECEIPTS), room) && Nodes(field(EXPECTED_RECEIPTS)) <= 7
    requires Fits(EXPECTED_MUTATIONS, field(EXPECTED_MUTATIONS), room) && Nodes(field(EXPECTED_MUTATIONS)) <= 2
    ensures HeavyFit(field, room)
  {
  }

  // ---- the dry run

  lemma {:induction false} DryRunNodes(dryRun: Value)
    requires dryRun.Dict? && forall k: Key :: k in dryRun.fields <==> InDryRun(k)
    requires forall k: Key | InDryRun(k) && k != SIMULATION && k != BLOCKERS :: IsLeaf(dryRun.fields[k])
    requires Nodes(Get(dryRun, SIMULATION)) <= SIMULATION_NODES && Nodes(Get(dryRun, BLOCKERS)) == 1
    ensures Nodes(dryRun) <= DRY_RUN_NODES
  {
    SomeBetween(dryRun, 0, 2);
    OneBetween(dryRun, BLOCKERS);
    NoneBetween(dryRun, 3, 41);
    SomeBetween(dryRun, 41, 209);
    OneBetween(dryRun, SIMULATION);
    SomeBetween(dryRun, 210, KEYS);
  }

  lemma {:induction false} DryRunLeaf(simulation: Value, k: Key, room: nat)
    requires InDryRun(k) && k != SIMULATION && k != BLOCKERS
    ensures Fits(k, DryRunField(simulation, k), room) && IsLeaf(DryRunField(simulation, k))
  {
  }

  lemma {:induction false} DryRunIsFilled(simulation: Value, field: Key -> Value)
    requires field == (k => DryRunField(simulation, k))
    ensures var dryRun := DryRun(simulation);
            && dryRun.Dict? && (forall k: Key :: k in dryRun.fields <==> InDryRun(k))
            && forall k: Key | InDryRun(k) :: dryRun.fields[k] == Get(dryRun, k) == field(k)
  {
  }

  lemma {:induction false} DryRunAs(dryRun: Value, field: Key -> Value)
    requires dryRun.Dict? && (forall k: Key :: k in dryRun.fields <==> InDryRun(k))
    requires forall k: Key | InDryRun(k) :: dryRun.fields[k] == Get(dryRun, k) == field(k)
    requires forall k: Key | InDryRun(k) :: Fits(k, field(k), 10) && (k != SIMULATION && k != BLOCKERS ==> IsLeaf(field(k)))
    requires Nodes(field(SIMULATION)) <= SIMULATION_NODES && Nodes(field(BLOCKERS)) == 1
    ensures FitsInList(dryRun) && Nodes(dryRun) <= DRY_RUN_NODES
  {
    FilledFits(dryRun, InDryRun, field, 11);
    DryRunNodes(dryRun);
  }

  lemma {:induction false} DryRunIsSafe(simulation: Value)
    requires Fits(SIMULATION, simulation, 10) && Nodes(simulation) <= SIMULATION_NODES
    ensures FitsInList(DryRun(simulation)) && Nodes(DryRun(simulation)) <= DRY_RUN_NODES
  {
    var field := (k: Key) => DryRunField(simulation, k);
    forall k: Key | InDryRun(k)
      ensures Fits(k, field(k), 10) && (k != SIMULATION && k != BLOCKERS ==> IsLeaf(field(k)))
    {
      if k == BLOCKERS { WordsFit(k, field(k), 10); } else if k != SIMULATION { DryRunLeaf(simulation, k, 10); }
    }
    WordsFit(BLOCKERS, field(BLOCKERS), 10);
    DryRunIsFilled(simulation, field);
    DryRunAs(DryRun(simulation), field);
  }

  lemma {:induction false} SnapshotParts(s: Value, binding: Value, now: Value, service: bool)
    requires SnapshotOk(s, binding, now, service)
    ensures Get(s, SNAPSHOT_STATE_DIGEST).Sha? && EnvironmentOk(Get(s, ENVIRONMENT), binding, now)
    ensures service ==> BeforeOk(Get(s, BEFORE_STATE))
  {
  }

  lemma {:induction false} ThreeAreHarmless(a: Value, b: Value, c: Value)
    requires SafeInput(List([a, b, c]))
    ensures Harmless(a) && Harmless(b) && Harmless(c)
  {
    var v := List([a, b, c]);
    assert v.items[0] == a && v.items[1] == b && v.items[2] == c;
  }

  /** What a validated plan brings. */
  lemma {:induction false} PlanParts(adapterPlan: Value, now: Value)
    requires Validate(adapterPlan, now).Some?
    ensures var plan := Validate(adapterPlan, now).value;
            var binding := Get(plan, BINDING);
            && BindingOk(binding) && EnvironmentOk(Get(plan, ENVIRONMENT), binding, now)
            && Harmless(Get(plan, ENVIRONMENT)) && Harmless(binding)
            && Get(plan, SCOPE_SOURCE).Text? && Get(plan, OPERATION_KIND_SOURCE).Text?
            && Get(plan, COMMAND_PLAN_SCHEMA).Text? && Get(plan, ADAPTER_KIND).Text?
            && Get(plan, IDEMPOTENCY_KEY_DIGEST).Sha? && Get(plan, ROLLBACK_PLAN_DIGEST).Sha?
            && Get(plan, FINOPS_CAP_CENTS) == Int(FINOPS_CAP) && Get(plan, RECEIPT_CLASSES) == List([Text(DryRunReceipt)])
  {
    var plan := Validate(adapterPlan, now).value;
    AcceptedIsCanonical(adapterPlan, now);
    HarmlessField(adapterPlan, ADAPTER_PLAN);
    HarmlessField(plan, BINDING);
    HarmlessField(plan, ENVIRONMENT);
    var binding, environment, v1Digest := Get(plan, BINDING), Get(plan, ENVIRONMENT), Get(plan, COMMAND_PLAN_V1_DIGEST);
    BodySources(binding, environment, v1Digest, CP.Hardening());
    BodyRest(binding, environment, v1Digest, CP.Hardening());
  }

  lemma {:induction false} FamilyIsId(binding: Value)
    requires BindingOk(binding) && Harmless(binding)
    ensures IsId(Get(binding, ACTION_FAMILY)) && Harmless(Get(binding, ACTION_FAMILY))
  {
    BindingKinds(binding);
    HarmlessField(binding, ACTION_FAMILY);
  }

  lemma {:induction false} EnvironmentExpiry(row: Value, binding: Value, now: Value)
    requires EnvironmentOk(Get(row, ENVIRONMENT), binding, now)
    ensures Expiry(row).Stamp? && now.Stamp? && EnvironmentFits(Get(row, ENVIRONMENT), binding)
  {
  }

  lemma {:induction false} PlanIsSimulable(adapterPlan: Value, provider: Value, service: Value, now: Value)
    requires Validate(adapterPlan, now).Some? && SnapshotsFit(Validate(adapterPlan, now).value, provider, service, now)
    ensures Simulable(Validate(adapterPlan, now).value, provider, service, now)
  {
    var plan := Validate(adapterPlan, now).value;
    PlanParts(adapterPlan, now);
    FamilyIsId(Get(plan, BINDING));
    SnapshotParts(provider, Get(plan, BINDING), now, false);
    SnapshotParts(service, Get(plan, BINDING), now, true);
    EnvironmentExpiry(plan, Get(plan, BINDING), now);
    EnvironmentExpiry(provider, Get(plan, BINDING), now);
    EnvironmentExpiry(service, Get(plan, BINDING), now);
  }

  lemma {:induction false} ThreeLists(p: Value -> bool, a: seq<Value>, b: seq<Value>, c: seq<Value>)
    requires |a| <= 16 && |b| <= 16 && |c| <= 16
    requires (forall i | 0 <= i < |a| :: p(a[i])) && (forall i | 0 <= i < |b| :: p(b[i]))
    requires forall i | 0 <= i < |c| :: p(c[i])
    ensures |a + b + c| <= 48 && forall i | 0 <= i < |a + b + c| :: p((a + b + c)[i])
  {
  }

  lemma {:induction false} SnapshotRefs(s: Value, binding: Value, now: Value, service: bool)
    requires SnapshotOk(s, binding, now, service) && Harmless(s)
    ensures |EnvironmentRefs(s)| <= 16 && forall i | 0 <= i < |EnvironmentRefs(s)| :: ListItem(EnvironmentRefs(s)[i])
  {
    SnapshotParts(s, binding, now, service);
    HarmlessField(s, ENVIRONMENT);
    RefItems(s, binding);
  }

  lemma {:induction false} RefsOfAll(adapterPlan: Value, provider: Value, service: Value, now: Value)
    requires Validate(adapterPlan, now).Some? && SnapshotsFit(Validate(adapterPlan, now).value, provider, service, now)
    requires Harmless(provider) && Harmless(service)
    ensures var refs := AllRefs(Validate(adapterPlan, now).value, provider, service);
            |refs| <= 48 && forall i | 0 <= i < |refs| :: ListItem(refs[i])
  {
    var plan := Validate(adapterPlan, now).value;
    PlanParts(adapterPlan, now);
    RefItems(plan, Get(plan, BINDING));
    SnapshotRefs(provider, Get(plan, BINDING), now, false);
    SnapshotRefs(service, Get(plan, BINDING), now, true);
    ThreeLists(ListItem, EnvironmentRefs(plan), EnvironmentRefs(provider), EnvironmentRefs(service));
  }

  /** The simulation of a validated plan and two fitting snapshots is in order. */
  lemma {:induction false} SimulationIsSafe(
    adapterPlan: Value, supplied: seq<Value>, provider: Value, service: Value, now: Value)
    requires Validate(adapterPlan, now).Some? && SnapshotsFit(Validate(adapterPlan, now).value, provider, service, now)
    requires Harmless(provider) && Harmless(service)
    ensures var simulation := Simulation(Validate(adapterPlan, now).value, supplied, provider, service, now);
            Fits(SIMULATION, simulation, 10) && Nodes(simulation) <= SIMULATION_NODES
  {
    var plan := Validate(adapterPlan, now).value;
    var coverage := Common(Alphabet(), ItemsOf(Get(plan, REQUIRED_CAPABILITIES)), supplied);
    var field := (k: Key) => SimulationField(plan, coverage, provider, service, now, k);
    PlanParts(adapterPlan, now);
    PlanIsSimulable(adapterPlan, provider, service, now);
    RefsOfAll(adapterPlan, provider, service, now);
    SnapshotParts(service, Get(plan, BINDING), now, true);
    AlphabetIsWords();
    CommonWords(Alphabet(), ItemsOf(Get(plan, REQUIRED_CAPABILITIES)), supplied);
    FieldsAreSafe(plan, coverage, provider, service, now, field);
    SimulationIsFilled(plan, supplied, provider, service, now, coverage, field);
    SimulationAs(Simulation(plan, supplied, provider, service, now), field, 10);
  }

  lemma {:induction false} FieldsAreSafe(
    plan: Value, coverage: seq<Value>, provider: Value, service: Value, now: Value, field: Key -> Value)
    requires field == (k => SimulationField(plan, coverage, provider, service, now, k))
    requires Simulable(plan, provider, service, now) && BindingOk(Get(plan, BINDING)) && Harmless(Get(plan, BINDING))
    requires Get(plan, RECEIPT_CLASSES) == List([Text(DryRunReceipt)]) && BeforeOk(Get(service, BEFORE_STATE))
    requires |coverage| <= 30 && forall i | 0 <= i < |coverage| :: coverage[i].Text?
    requires var refs := AllRefs(plan, provider, service);
             |refs| <= 48 && forall i | 0 <= i < |refs| :: ListItem(refs[i])
    ensures HeavyFit(field, 9)
    ensures forall k: Key | IsSimulationLeaf(k) :: Fits(k, field(k), 9) && IsLeaf(field(k))
  {
    BindingFits(Get(plan, BINDING), 9);
    SimulationHeavy(plan, coverage, provider, service, now, field);
    HeavyFieldsFit(field, AllRefs(plan, provider, service), Get(plan, BINDING), coverage, Get(service, BEFORE_STATE), 9);
    forall k: Key | IsSimulationLeaf(k)
      ensures Fits(k, field(k), 9) && IsLeaf(field(k))
    {
      SimulationLeafFits(plan, coverage, provider, service, now, k, 9);
    }
  }

  /** Every READY dry run is itself safe input. */
  lemma {:induction false} BuiltIsSafe(
    adapterPlan: Value, capabilities: Value, provider: Value, service: Value, now: Value)
    requires BuildDryRun(adapterPlan, capabilities, provider, service, now).Some?
    ensures var dryRun := BuildDryRun(adapterPlan, capabilities, provider, service, now).value;
            SafeInput(dryRun) && FitsInList(dryRun) && Nodes(dryRun) <= DRY_RUN_NODES
  {
    ThreeAreHarmless(capabilities, provider, service);
    SimulationIsSafe(adapterPlan, capabilities.items, provider, service, now);
    DryRunIsSafe(Simulation(Validate(adapterPlan, now).value, capabilities.items, provider, service, now));
    InListIsSafe(BuildDryRun(adapterPlan, capabilities, provider, service, now).value);
  }

  // ---- the snapshots and the capability list

  const SNAPSHOT_NODES := 110

  lemma {:induction false} SnapshotNodes(s: Value, service: bool)
    requires s.Dict? && forall k: Key :: k in s.fields <==> InSnapshot(k, service)
    requires forall k: Key | InSnapshot(k, service) && k != BINDING && k != ENVIRONMENT && k != BEFORE_STATE ::
               IsLeaf(s.fields[k])
    requires Nodes(Get(s, BINDING)) <= BINDING_NODES && Nodes(Get(s, ENVIRONMENT)) <= ENVIRONMENT_NODES
    requires service ==> Nodes(Get(s, BEFORE_STATE)) <= 3
    ensures Nodes(s) <= SNAPSHOT_NODES
  {
    SomeBetween(s, 0, 1);
    NoneBetween(s, 1, 173);
    OneBetween(s, BINDING);
    NoneBetween(s, 174, 183);
    OneBetween(s, ENVIRONMENT);
    NoneBetween(s, 184, 191);
    SomeBetween(s, 191, 192);
    NoneBetween(s, 192, 203);
    SomeBetween(s, 203, 206);
    if service { OneBetween(s, BEFORE_STATE); } else { NoneBetween(s, 206, 207); }
    NoneBetween(s, 207, KEYS);
  }

  lemma {:induction false} SnapshotLeaf(s: Value, binding: Value, now: Value, service: bool, k: Key)
    requires SnapshotOk(s, binding, now, service)
    requires InSnapshot(k, service) && k != BINDING && k != ENVIRONMENT && k != BEFORE_STATE
    ensures Typed(k, Get(s, k)) && IsLeaf(Get(s, k))
  {
  }

  lemma {:induction false} SnapshotLeaves(s: Value, binding: Value, now: Value, service: bool)
    requires SnapshotOk(s, binding, now, service)
    ensures s.Dict? && (forall k: Key :: k in s.fields <==> InSnapshot(k, service)) && Get(s, BINDING) == binding
    ensures forall k: Key | InSnapshot(k, service) && k != BINDING && k != ENVIRONMENT && k != BEFORE_STATE ::
              Typed(k, Get(s, k)) && IsLeaf(Get(s, k))
  {
    forall k: Key | InSnapshot(k, service) && k != BINDING && k != ENVIRONMENT && k != BEFORE_STATE
      ensures Typed(k, Get(s, k)) && IsLeaf(Get(s, k))
    {
      SnapshotLeaf(s, binding, now, service, k);
    }
  }

  lemma {:induction false} SnapshotAs(s: Value, service: bool)
    requires s.Dict? && (forall k: Key :: k in s.fields <==> InSnapshot(k, service)) && Harmless(s)
    requires forall k: Key | InSnapshot(k, service) && k != BINDING && k != ENVIRONMENT && k != BEFORE_STATE ::
               Typed(k, Get(s, k)) && IsLeaf(Get(s, k))
    requires Fits(BINDING, Get(s, BINDING), 10) && Nodes(Get(s, BINDING)) <= BINDING_NODES
    requires Fits(ENVIRONMENT, Get(s, ENVIRONMENT), 10) && Nodes(Get(s, ENVIRONMENT)) <= ENVIRONMENT_NODES
    requires service ==> Fits(BEFORE_STATE, Get(s, BEFORE_STATE), 10) && Nodes(Get(s, BEFORE_STATE)) <= 3
    ensures FitsInList(s) && Nodes(s) <= SNAPSHOT_NODES
  {
    forall k: Key | k in s.fields
      ensures Fits(k, s.fields[k], 10)
      ensures k != BINDING && k != ENVIRONMENT && k != BEFORE_STATE ==> IsLeaf(s.fields[k])
    {
      assert s.fields[k] == Get(s, k);
      if k != BINDING && k != ENVIRONMENT && k != BEFORE_STATE { LeafFits(k, s.fields[k], 10); }
    }
    DictFits(s, 11);
    SnapshotNodes(s, service);
  }

  lemma {:induction false} SnapshotEnvironment(s: Value, binding: Value, now: Value)
    requires EnvironmentOk(Get(s, ENVIRONMENT), binding, now) && BindingOk(binding) && Harmless(s)
    ensures Fits(ENVIRONMENT, Get(s, ENVIRONMENT), 10) && Nodes(Get(s, ENVIRONMENT)) <= ENVIRONMENT_NODES
  {
    HarmlessField(s, ENVIRONMENT);
    EnvironmentIsSafe(Get(s, ENVIRONMENT), binding, now, 10);
  }

  lemma {:induction false} SnapshotBinding(s: Value)
    requires BindingOk(Get(s, BINDING)) && Harmless(s)
    ensures Fits(BINDING, Get(s, BINDING), 10) && Nodes(Get(s, BINDING)) <= BINDING_NODES
  {
    HarmlessField(s, BINDING);
    BindingFits(Get(s, BINDING), 10);
  }

  lemma {:induction false} SnapshotBefore(s: Value)
    requires BeforeOk(Get(s, BEFORE_STATE))
    ensures Fits(BEFORE_STATE, Get(s, BEFORE_STATE), 10) && Nodes(Get(s, BEFORE_STATE)) <= 3
  {
    StateFits(BEFORE_STATE, Get(s, BEFORE_STATE), 10);
  }

  lemma {:induction false} HeavySnapshotFits(s: Value, binding: Value, now: Value, service: bool)
    requires Get(s, BINDING) == binding && BindingOk(binding) && Harmless(s)
    requires EnvironmentOk(Get(s, ENVIRONMENT), binding, now) && (service ==> BeforeOk(Get(s, BEFORE_STATE)))
    ensures Fits(BINDING, Get(s, BINDING), 10) && Nodes(Get(s, BINDING)) <= BINDING_NODES
    ensures Fits(ENVIRONMENT, Get(s, ENVIRONMENT), 10) && Nodes(Get(s, ENVIRONMENT)) <= ENVIRONMENT_NODES
    ensures service ==> Fits(BEFORE_STATE, Get(s, BEFORE_STATE), 10) && Nodes(Get(s, BEFORE_STATE)) <= 3
  {
    SnapshotBinding(s);
    SnapshotEnvironment(s, binding, now);
    if service { SnapshotBefore(s); }
  }

  /** A fitting snapshot with harmless texts is in order. */
  lemma {:induction false} SnapshotIsSafe(s: Value, binding: Value, now: Value, service: bool)
    requires SnapshotOk(s, binding, now, service) && BindingOk(binding) && Harmless(s)
    ensures FitsInList(s) && Nodes(s) <= SNAPSHOT_NODES
  {
    SnapshotLeaves(s, binding, now, service);
    SnapshotParts(s, binding, now, service);
    HeavySnapshotFits(s, binding, now, service);
    SnapshotAs(s, service);
  }

  /** A known capability list is in order. */
  lemma {:induction false} KnownListIsSafe(capabilities: Value)
    requires CapabilitiesKnown(capabilities)
    ensures FitsInList(capabilities) && Nodes(capabilities) <= 31
  {
    AlphabetIsWords();
    forall i | 0 <= i < |capabilities.items|
      ensures capabilities.items[i].Text?
    {
      assert capabilities.items[i] in Alphabet();
    }
    WordsFit(CAPABILITY_COVERAGE, capabilities, 11);
  }

  lemma {:induction false} ThreeAreSafe(a: Value, b: Value, c: Value)
    requires FitsInList(a) && FitsInList(b) && FitsInList(c) && Nodes(a) + Nodes(b) + Nodes(c) < 4096
    ensures SafeInput(List([a, b, c]))
  {
    ThreeNodes(a, b, c);
    InputsAreSafe([a, b, c]);
  }

  /** The three inputs of a dry run are safe whenever they fit a validated plan. */
  lemma {:induction false} InputsFit(binding: Value, capabilities: Value, provider: Value, service: Value, now: Value)
    requires BindingOk(binding) && CapabilitiesKnown(capabilities)
    requires SnapshotOk(provider, binding, now, false) && SnapshotOk(service, binding, now, true)
    requires Harmless(provider) && Harmless(service)
    ensures SafeInput(List([capabilities, provider, service]))
  {
    KnownListIsSafe(capabilities);
    SnapshotIsSafe(provider, binding, now, false);
    SnapshotIsSafe(service, binding, now, true);
    ThreeAreSafe(capabilities, provider, service);
  }

  // ------------------------------------------------------------ what is accepted

  lemma {:induction false} DryRunParts(simulation: Value)
    ensures Get(DryRun(simulation), SIMULATION) == simulation
    ensures Get(DryRun(simulation), DRY_RUN_DIGEST) == Sha(simulation)
  {
  }

  lemma {:induction false} BuiltParts(
    adapterPlan: Value, capabilities: Value, provider: Value, service: Value, now: Value)
    requires BuildDryRun(adapterPlan, capabilities, provider, service, now).Some?
    ensures capabilities.List? && Validate(adapterPlan, now).Some?
    ensures Get(BuildDryRun(adapterPlan, capabilities, provider, service, now).value, SIMULATION)
         == Simulation(Validate(adapterPlan, now).value, capabilities.items, provider, service, now)
  {
    DryRunParts(Simulation(Validate(adapterPlan, now).value, capabilities.items, provider, service, now));
  }

  lemma {:induction false} SimulationTimes(
    plan: Value, supplied: seq<Value>, provider: Value, service: Value, now: Value)
    ensures var simulation := Simulation(plan, supplied, provider, service, now);
            && Get(simulation, OBSERVED_AT) == now
            && Get(simulation, EXPIRES_AT) == Earlier(Earlier(Expiry(plan), Expiry(provider)), Expiry(service))
  {
  }

  /** The validator accepts exactly what the builder makes of the same inputs at the same
      time; in particular every READY dry run validates, at its own time, back to its
      simulation. */
  lemma {:induction false} ValidatorInvertsBuilder(
    dryRun: Value, adapterPlan: Value, capabilities: Value, provider: Value, service: Value, now: Value)
    ensures ValidateDryRun(dryRun, adapterPlan, capabilities, provider, service, now)
         == if BuildDryRun(adapterPlan, capabilities, provider, service, now) == Some(dryRun)
            then Some(Get(dryRun, SIMULATION)) else None
  {
    if BuildDryRun(adapterPlan, capabilities, provider, service, now).Some? {
      BuiltIsSafe(adapterPlan, capabilities, provider, service, now);
    }
  }

  /** What it returns is the simulation of the validated plan. */
  lemma {:induction false} ValidatedSimulation(
    dryRun: Value, adapterPlan: Value, capabilities: Value, provider: Value, service: Value, now: Value)
    requires ValidateDryRun(dryRun, adapterPlan, capabilities, provider, service, now).Some?
    ensures BuildDryRun(adapterPlan, capabilities, provider, service, now) == Some(dryRun)
    ensures capabilities.List? && Validate(adapterPlan, now).Some?
    ensures ValidateDryRun(dryRun, adapterPlan, capabilities, provider, service, now)
         == Some(Simulation(Validate(adapterPlan, now).value, capabilities.items, provider, service, now))
  {
    ValidatorInvertsBuilder(dryRun, adapterPlan, capabilities, provider, service, now);
    BuiltParts(adapterPlan, capabilities, provider, service, now);
  }

  /** A dry run is accepted at one time only, the one at which it says it was observed,
      whatever plan, capabilities and snapshots it is presented with. */
  lemma {:induction false} AcceptedAtItsTimeOnly(
    dryRun: Value, adapterPlan: Value, capabilities: Value, provider: Value, service: Value, now: Value)
    requires ValidateDryRun(dryRun, adapterPlan, capabilities, provider, service, now).Some?
    ensures now == Get(Get(dryRun, SIMULATION), OBSERVED_AT)
  {
    ValidatedSimulation(dryRun, adapterPlan, capabilities, provider, service, now);
    BuiltParts(adapterPlan, capabilities, provider, service, now);
    SimulationTimes(Validate(adapterPlan, now).value, capabilities.items, provider, service, now);
  }

  /** A READY dry run is the same whatever the order of the capability list and whatever
      known capabilities it holds beyond the required ones. */
  lemma {:induction false} CapabilityListDoesNotMatter(
    adapterPlan: Value, a: Value, b: Value, provider: Value, service: Value, now: Value)
    requires BuildDryRun(adapterPlan, a, provider, service, now).Some?
    requires BuildDryRun(adapterPlan, b, provider, service, now).Some?
    ensures BuildDryRun(adapterPlan, a, provider, service, now)
         == BuildDryRun(adapterPlan, b, provider, service, now)
  {
    SameSimulation(Validate(adapterPlan, now).value, a.items, b.items, provider, service, now);
  }

  lemma {:induction false} BuiltFits(
    adapterPlan: Value, capabilities: Value, provider: Value, service: Value, now: Value)
    requires BuildDryRun(adapterPlan, capabilities, provider, service, now).Some?
    ensures Validate(adapterPlan, now).Some? && SnapshotsFit(Validate(adapterPlan, now).value, provider, service, now)
    ensures Harmless(provider) && Harmless(service) && BindingOk(Get(Validate(adapterPlan, now).value, BINDING))
  {
    ThreeAreHarmless(capabilities, provider, service);
    PlanParts(adapterPlan, now);
  }

  /** Fitting snapshots and a known, sufficient list always make a dry run. */
  lemma {:induction false} FittingIsBuilt(
    adapterPlan: Value, capabilities: Value, provider: Value, service: Value, now: Value)
    requires Validate(adapterPlan, now).Some? && SnapshotsFit(Validate(adapterPlan, now).value, provider, service, now)
    requires Harmless(provider) && Harmless(service) && CapabilitiesKnown(capabilities)
    requires Covers(capabilities.items, ItemsOf(Get(Validate(adapterPlan, now).value, REQUIRED_CAPABILITIES)))
    ensures BuildDryRun(adapterPlan, capabilities, provider, service, now)
         == Some(DryRun(Simulation(Validate(adapterPlan, now).value, capabilities.items, provider, service, now)))
  {
    PlanParts(adapterPlan, now);
    InputsFit(Get(Validate(adapterPlan, now).value, BINDING), capabilities, provider, service, now);
  }

  lemma {:induction false} BuiltValue(
    adapterPlan: Value, capabilities: Value, provider: Value, service: Value, now: Value)
    requires BuildDryRun(adapterPlan, capabilities, provider, service, now).Some?
    ensures Validate(adapterPlan, now).Some? && CapabilitiesKnown(capabilities)
    ensures Covers(capabilities.items, ItemsOf(Get(Validate(adapterPlan, now).value, REQUIRED_CAPABILITIES)))
    ensures BuildDryRun(adapterPlan, capabilities, provider, service, now)
         == Some(DryRun(Simulation(Validate(adapterPlan, now).value, capabilities.items, provider, service, now)))
  {
  }

  /** The second list needs no more than to be known, distinct and sufficient. */
  lemma {:induction false} AnySufficientListWillDo(
    adapterPlan: Value, a: Value, b: Value, provider: Value, service: Value, now: Value)
    requires BuildDryRun(adapterPlan, a, provider, service, now).Some?
    ensures BuildDryRun(adapterPlan, b, provider, service, now)
         == if CapabilitiesKnown(b) && Covers(b.items, ItemsOf(Get(Validate(adapterPlan, now).value, REQUIRED_CAPABILITIES)))
            then BuildDryRun(adapterPlan, a, provider, service, now) else None
  {
    var plan := Validate(adapterPlan, now).value;
    BuiltValue(adapterPlan, a, provider, service, now);
    BuiltFits(adapterPlan, a, provider, service, now);
    if CapabilitiesKnown(b) && Covers(b.items, ItemsOf(Get(plan, REQUIRED_CAPABILITIES))) {
      FittingIsBuilt(adapterPlan, b, provider, service, now);
      SameSimulation(plan, a.items, b.items, provider, service, now);
    } else if BuildDryRun(adapterPlan, b, provider, service, now).Some? {
      BuiltValue(adapterPlan, b, provider, service, now);
    }
  }

  /** Whether a dry run is accepted does not depend on which sufficient list comes with it. */
  lemma {:induction false} AcceptanceIgnoresList(
    dryRun: Value, adapterPlan: Value, a: Value, b: Value, provider: Value, service: Value, now: Value)
    requires ValidateDryRun(dryRun, adapterPlan, a, provider, service, now).Some?
    ensures ValidateDryRun(dryRun, adapterPlan, b, provider, service, now)
         == if CapabilitiesKnown(b) && Covers(b.items, ItemsOf(Get(Validate(adapterPlan, now).value, REQUIRED_CAPABILITIES)))
            then ValidateDryRun(dryRun, adapterPlan, a, provider, service, now) else None
  {
    ValidatorInvertsBuilder(dryRun, adapterPlan, a, provider, service, now);
    ValidatorInvertsBuilder(dryRun, adapterPlan, b, provider, service, now);
    AnySufficientListWillDo(adapterPlan, a, b, provider, service, now);
  }

  /** A simulation lasts as long as the environment of its plan: the three environments
      are one, and its window is at most three minutes. */
  lemma {:induction false} SimulationWindow(
    adapterPlan: Value, capabilities: Value, provider: Value, service: Value, now: Value)
    requires BuildDryRun(adapterPlan, capabilities, provider, service, now).Some?
    ensures var plan := Validate(adapterPlan, now).value;
            var environment := Get(plan, ENVIRONMENT);
            var simulation := Simulation(plan, capabilities.items, provider, service, now);
            && Get(provider, ENVIRONMENT) == Get(service, ENVIRONMENT) == environment && Fresh(environment, now)
            && Get(simulation, EXPIRES_AT) == Get(environment, EXPIRES_AT) && Get(simulation, OBSERVED_AT) == now
  {
    var plan := Validate(adapterPlan, now).value;
    AcceptedIsCanonical(adapterPlan, now);
    SimulationTimes(plan, capabilities.items, provider, service, now);
  }
}
