/** The JSON-like values that the signed pipeline passes from stage to stage.  Digests,
    derived event ids and signatures are symbolic: `Sha(v)` is the digest text of `v`. */
module Records {
  import opened Wrappers
  import T = Texts

  /** The dictionary keys of the pipeline, numbered so that the groups of fields which the
      gates loop over are ranges. */
  newtype Key = k: int | 0 <= k < 300

  const SCHEMA: Key := 0
  const STATE: Key := 1
  const BLOCKERS: Key := 2
  const SCOPE: Key := 3
  const PURPOSE: Key := 4
  const SIGNATURE_MECHANISM: Key := 5
  const OWNER_FINGERPRINT: Key := 6
  const WRITER_FINGERPRINT: Key := 7
  const EXECUTION_DECISION: Key := 8
  const EXECUTION_RECORD: Key := 9

  // the scope fields
  const OWNER_ID: Key := 10
  const TENANT_ID: Key := 11
  const WORKSPACE_ID: Key := 12

  // the identity fields, the four of a receipt first
  const CUSTOMER_ID: Key := 13
  const PILOT_ID: Key := 14
  const REQUESTED_CHOICE: Key := 15
  const ACTION_FAMILY: Key := 16
  const PACKAGE: Key := 17
  const REVIEW_TYPE: Key := 18

  // the eight digests of the execution preflight, then those of the execution itself
  const ACTION_RECORD_DIGEST: Key := 20
  const ACTION_RECEIPT_DIGEST: Key := 21
  const ACTION_CHECKPOINT_DIGEST: Key := 22
  const ACTION_WRITER_REQUEST_DIGEST: Key := 23
  const AUTHORIZATION_PREFLIGHT_DIGEST: Key := 24
  const ACTION_PARAMETERS_DIGEST: Key := 25
  const EXECUTION_ENVIRONMENT_DIGEST: Key := 26
  const EXECUTION_PREFLIGHT_DIGEST: Key := 27
  const EXECUTION_REQUEST_DIGEST: Key := 28
  const EXECUTION_RECORD_DIGEST: Key := 29

  // the fields that the author of a request chooses
  const CEREMONY_ID: Key := 30
  const NONCE: Key := 31
  const KEY_ID: Key := 32
  const KEY_VERSION: Key := 33
  const ISSUED_AT: Key := 34
  const EXPIRES_AT: Key := 35
  const DECISION: Key := 36

  // flags of requests, decisions and records
  const RECORD_PERSISTED: Key := 40
  const COMMAND_GENERATED: Key := 41
  const COMMAND_EXECUTED: Key := 42
  const EXECUTION_REQUEST_ISSUED: Key := 43
  const OWNER_SIGNATURE_VERIFIED: Key := 44
  const DECISION_VERIFIED: Key := 45
  const AUTHORIZATION_INTENT: Key := 46
  const DENIAL_INTENT: Key := 47
  const ELIGIBLE_AFTER_PERSISTENCE: Key := 48

  const OWNER_IDENTITY_VERIFIED: Key := 50
  const REQUIRES_RECORD_PERSISTENCE: Key := 51
  const GENERIC_CHAT_ACCEPTED: Key := 52
  const CEREMONY_ELIGIBLE: Key := 53
  const HUMAN_CONFIRMATION_REQUIRED: Key := 54
  const CUSTOMER_VISIBLE: Key := 55

  // the persistence plan and its patch candidate
  const PATCH_CANDIDATE: Key := 60
  const CHECKPOINT_SAVED: Key := 61
  const AUTOMATIC_WRITE: Key := 62
  const REQUIRES_EXPLICIT_SAVE: Key := 63
  const REQUIRES_ATTESTATION: Key := 64
  const CHECKPOINT_REVISION: Key := 65
  const CHECKPOINT_STATE_DIGEST: Key := 66
  const EXPECTED_REVISION: Key := 67
  const EXPECTED_STATE_DIGEST: Key := 68
  const RECOMMENDED_EVENT_ID: Key := 69
  const PATCH: Key := 70
  const EXECUTION_NAMESPACE: Key := 71

  // the checkpoint receipt, the part that a writer signs last
  const STATUS: Key := 75
  const WRITE_MODE: Key := 76
  const BASE_REVISION: Key := 77
  const REVISION: Key := 78
  const PERSISTED_AT: Key := 79
  const PATCH_DIGEST: Key := 80
  const BEFORE_CHECKPOINT_DIGEST: Key := 81
  const STORAGE_TARGET: Key := 82
  const NAMESPACE: Key := 83
  const EVENT_ID: Key := 84
  const WRITER_REF: Key := 85
  const AFTER_CHECKPOINT_DIGEST: Key := 86
  const RECEIPT_DIGEST: Key := 87
  const WRITER_IDENTITY_VERIFIED: Key := 88

  // the persistence and writer attestations
  const PERSISTENCE_ATTESTED: Key := 90
  const RECEIPT_CONSISTENCY_VERIFIED: Key := 91
  const ELIGIBLE_FOR_COMMAND_PLANNING: Key := 92
  const STORAGE_WRITE_PERFORMED: Key := 93
  const WRITER_KEY_ID: Key := 94
  const WRITER_KEY_VERSION: Key := 95
  const WRITER_REQUEST_DIGEST: Key := 96
  const WRITER_AUTHORITY_VERIFIED: Key := 97
  const RECEIPT_BINDING_VERIFIED: Key := 98
  const NONCE_REGISTERED: Key := 99
  const CHECKPOINT_WRITE_PERFORMED: Key := 100

  // the command plan
  const OPERATION_KIND: Key := 102
  const TARGET_DOMAIN: Key := 103
  const INTENT_WRITER_REQUEST_DIGEST: Key := 104
  const COMMAND_PLAN: Key := 105
  const COMMAND_PLAN_DIGEST: Key := 106
  const COMMAND_PLAN_V1_DIGEST: Key := 107
  const SCOPE_SOURCE: Key := 108
  const OPERATION_KIND_SOURCE: Key := 109
  const RED_TEAM_HARDENING: Key := 110

  // what a command plan requires, what V2 hardens, what no plan contains
  const ADAPTER_REVIEW_REQUIRED: Key := 111
  const ADAPTER_BINDING_REQUIRED: Key := 112
  const FRESH_RECHECK_REQUIRED: Key := 113
  const TRUSTED_SCOPE_REMOVED: Key := 114
  const TRUNCATION_REJECTED: Key := 115
  const OPERATION_KIND_DERIVED: Key := 116
  const PROVIDER_OPERATION_MATERIALIZED: Key := 117
  const PROVIDER_ADAPTER_SELECTED: Key := 118
  const PROVIDER_ENDPOINT_INCLUDED: Key := 119
  const HTTP_METHOD_INCLUDED: Key := 120
  const HEADERS_INCLUDED: Key := 121
  const EXECUTABLE_PAYLOAD_INCLUDED: Key := 122
  const CREDENTIAL_MATERIAL_INCLUDED: Key := 123
  const SECRET_MATERIAL_INCLUDED: Key := 124
  const EXECUTION_TOKEN_ISSUED: Key := 125
  const SHELL_COMMAND_GENERATED: Key := 126

  // the 22 authority fields
  const BUSINESS_ACTION_AUTHORIZED: Key := 130
  const RENEWAL_AUTHORIZED: Key := 131
  const EXPANSION_AUTHORIZED: Key := 132
  const NON_RENEWAL_AUTHORIZED: Key := 133
  const REMEDIATION_AUTHORIZED: Key := 134
  const PAUSE_AUTHORIZED: Key := 135
  const TERMINATION_AUTHORIZED: Key := 136
  const BILLING_AUTHORIZED: Key := 137
  const PRICING_CHANGE_AUTHORIZED: Key := 138
  const QUOTA_CHANGE_AUTHORIZED: Key := 139
  const PACKAGE_CHANGE_AUTHORIZED: Key := 140
  const ROLE_CHANGE_AUTHORIZED: Key := 141
  const INTEGRATION_CHANGE_AUTHORIZED: Key := 142
  const CUSTOMER_CONTACT_AUTHORIZED: Key := 143
  const PROVISIONING_AUTHORIZED: Key := 144
  const DEPLOY_AUTHORIZED: Key := 145
  const PROVIDER_CALLED: Key := 146
  const CRM_WRITE_AUTHORIZED: Key := 147
  const PRODUCTION_MUTATION_AUTHORIZED: Key := 148
  const EXTERNAL_ACTION_EXECUTED: Key := 149
  const NETWORK_CALLED: Key := 150
  const EXECUTES_ACTION: Key := 151

  // the checkpoint journal and its digest
  const SEQUENCE: Key := 152
  const EVENT_TYPE: Key := 153
  const CREATED_AT: Key := 154
  const PREVIOUS_DIGEST: Key := 155
  const EVIDENCE_REFS: Key := 156
  const BASE_DIGEST: Key := 157
  const HEAD_DIGEST: Key := 158
  const STATE_DIGEST: Key := 159
  const COMPACTION_GENERATION: Key := 160
  const SOURCE_REFS: Key := 161
  const JOURNAL_EVENT_DIGESTS: Key := 162

  // the authority statement
  const STATEMENT_ID: Key := 163
  const AUTHORITY_ID: Key := 164
  const SUBJECT_ID: Key := 165
  const DOMAIN: Key := 166
  const POLICY_ID: Key := 167
  const CAPABILITIES: Key := 168
  const GRANT_KIND: Key := 169

  // the adapter plan
  const COMMAND_PLAN_SCHEMA: Key := 170
  const ADAPTER_PLAN: Key := 171
  const ADAPTER_PLAN_DIGEST: Key := 172
  const BINDING: Key := 173
  const ADAPTER_KIND: Key := 174
  const PROVIDER_CLASS: Key := 175
  const REQUIRED_CAPABILITIES: Key := 176
  const REQUIRED_SCOPES: Key := 177
  const ROLLBACK_STRATEGY: Key := 178
  const IDEMPOTENCY_STRATEGY: Key := 179
  const IDEMPOTENCY_KEY_DIGEST: Key := 180
  const SIDE_EFFECT_CLASSES: Key := 181
  const RECEIPT_CLASSES: Key := 182
  const ENVIRONMENT: Key := 183
  const ENVIRONMENT_DIGEST: Key := 184
  const ROLLBACK_PLAN: Key := 185
  const ROLLBACK_PLAN_DIGEST: Key := 186
  const SEPARATE_CONTRACT_REQUIRED: Key := 187
  const HARDENING_DIGEST: Key := 188
  const FINOPS_CAP_CENTS: Key := 189
  const PRODUCTION_MUTATION_PERFORMED: Key := 190

  // the synthetic environment, its risks last
  const SYNTHETIC: Key := 191
  const AS_OF: Key := 192
  const PROVIDER_STATE: Key := 193
  const ROLLBACK_STATE: Key := 194
  const CAPACITY_SUFFICIENT: Key := 195
  const ROLLBACK_SUPPORTED: Key := 196
  const FINOPS_MONTHLY_CENTS: Key := 197
  const BILLING_DISPUTE: Key := 198
  const SECURITY_INCIDENT: Key := 199
  const PRIVACY_INCIDENT: Key := 200
  const CONTRACT_CONFLICT: Key := 201
  const IRREVERSIBLE_BOUNDARY: Key := 202

  // the snapshots
  const SNAPSHOT_STATE_DIGEST: Key := 203
  const CONTRACT_STATE: Key := 204
  const SERVICE_STATE: Key := 205
  const BEFORE_STATE: Key := 206
  const STAGING_REVISION: Key := 207
  const CHANGE_PENDING: Key := 208

  // the dry run
  const SIMULATION: Key := 209
  const DRY_RUN_DIGEST: Key := 210
  const CONTRACT_VERSION: Key := 211
  const CAPABILITY_COVERAGE: Key := 212
  const BEFORE_STATE_DIGEST: Key := 213
  const AFTER_STATE_DIGEST: Key := 214
  const SYNTHETIC_BEFORE_STATE: Key := 215
  const SYNTHETIC_AFTER_STATE: Key := 216
  const PROVIDER_SNAPSHOT_DIGEST: Key := 217
  const CONTRACT_SERVICE_DIGEST: Key := 218
  const OBSERVED_AT: Key := 219

  // the synthetic receipt
  const TIMESTAMP: Key := 221
  const WRITER_IDENTITY_REF: Key := 222
  const PROVIDER_IDENTITY_REF: Key := 223
  const OWNER_AUTHORIZATION_DIGEST: Key := 224

  // what the execution preflight reads of the authorisation
  const AUTHORIZATION_DECISION: Key := 226
  const ACTION_RECORD_PERSISTED: Key := 227
  const ELIGIBLE_FOR_EXECUTION_PREFLIGHT: Key := 228
  const CONTRACT_DIGEST: Key := 229
  const CYCLE_EVIDENCE_DIGEST: Key := 230
  const PREFLIGHT_DIGEST: Key := 231
  const ACTION_CEREMONY_ELIGIBLE: Key := 232
  const FRESH_RECHECK_BEFORE_CEREMONY: Key := 233
  const ACTION_REQUEST_ISSUED: Key := 234
  const OWNER_ACTION_SIGNATURE_VERIFIED: Key := 235

  // and of the execution environment: scalars, required flags, forbidden flags, digests
  const EXECUTION_MODE: Key := 236
  const ACTION_WINDOW_RESERVED: Key := 237
  const SCOPE_EXPANSION_ALLOWED: Key := 238
  const RESERVED_CAPACITY_UNITS: Key := 239
  const AVAILABLE_CAPACITY_UNITS: Key := 240
  const PLANNED_MONTHLY_INFRA: Key := 241
  const CHECKED_AT: Key := 242
  const ACTION_PRECONDITIONS: Key := 243
  const TENANT_ISOLATION_READY: Key := 244
  const CONTRACT_SNAPSHOT_FRESH: Key := 245
  const SERVICE_HEALTH_FRESH: Key := 246
  const SLA_STATE_FRESH: Key := 247
  const FINOPS_STATE_FRESH: Key := 248
  const CAPACITY_STATE_FRESH: Key := 249
  const SUPPORT_STATE_FRESH: Key := 250
  const ROLLBACK_READY: Key := 251
  const AUDIT_RECEIPTS_READY: Key := 252
  const IDEMPOTENCY_KEY_READY: Key := 253
  const SINGLE_ACTION_LOCK_READY: Key := 254
  const CUSTOMER_SAFE_PROJECTION_READY: Key := 255
  const KILL_SWITCH_READY: Key := 256
  const DRY_RUN_VALIDATION_PASS: Key := 257
  const SCOPE_BREACH: Key := 258
  const PROVIDER_DEGRADED: Key := 259
  const ROLLBACK_DEGRADED: Key := 260
  const UNRESOLVED_BILLING_DISPUTE: Key := 261
  const SERVICE_HEALTH_DIGEST: Key := 262
  const SLA_DIGEST: Key := 263
  const FINOPS_DIGEST: Key := 264
  const CAPACITY_DIGEST: Key := 265
  const SUPPORT_DIGEST: Key := 266
  const SECURITY_DIGEST: Key := 267
  const CUSTOMER_SAFE_PROJECTION_DIGEST: Key := 268

  // the action preconditions
  const RENEWAL_TERMS_SNAPSHOT_READY: Key := 269
  const SERVICE_CONTINUITY_PLAN_READY: Key := 270
  const CHANGE_SCOPE_LOCKED: Key := 271
  const CONTRACT_CHANGE_PACKET_READY: Key := 272
  const OFFBOARDING_PLAN_READY: Key := 273
  const DATA_RETENTION_PLAN_READY: Key := 274
  const CUSTOMER_NOTICE_PLAN_READY: Key := 275
  const REMEDIATION_PLAN_READY: Key := 276
  const REMEDIATION_OWNER_READY: Key := 277
  const CAPACITY_PLAN_READY: Key := 278
  const QUOTA_CHANGE_PLAN_READY: Key := 279
  const PRICING_PACKET_READY: Key := 280
  const INCIDENT_CONTAINMENT_READY: Key := 281
  const INCIDENT_REMEDIATION_PLAN_READY: Key := 282
  const PAUSE_PLAN_READY: Key := 283
  const CUSTOMER_IMPACT_ASSESSED: Key := 284
  const TERMINATION_PLAN_READY: Key := 285

  // what a rollback plan and a simulation state besides
  const ROLLBACK_MODE: Key := 286
  const ROLLBACK_STEPS: Key := 287
  const ROLLBACK_EVIDENCE_REQUIRED: Key := 288
  const ROLLBACK_RECEIPT_REQUIRED: Key := 289
  const ROLLBACK_TIMEOUT_SECONDS: Key := 290
  const ROLLBACK_CONFIRMATION_REQUIRED: Key := 291
  const MISSING_CAPABILITIES: Key := 292
  const CONFLICT_DETECTED: Key := 293
  const ROLLBACK_FEASIBLE: Key := 294
  const IDEMPOTENCY_READY: Key := 295
  const EXPECTED_RECEIPTS: Key := 296
  const EXPECTED_MUTATIONS: Key := 297
  const EXPECTED_CUSTOMER_IMPACT: Key := 298
  const EXPECTED_FINOPS_IMPACT: Key := 299

  /** The texts that the program itself spells. */
  datatype Word =
    | PreflightSchema | RequestSchema | ResultSchema | PlanSchema | PatchSchema | AttestationSchema | ReceiptSchema
    | WriterRequestSchema | WriterResultSchema | CommandPlanSchema | CommandPlanV2Schema
    | CheckpointSchema | CheckpointEventSchema | Genesis | MergePatch
    | ExecutionPurpose | WriterPurpose | OwnerMechanism | WriterMechanism | ExecutionScope | WriterScope
    | Authorize | Deny
    | ReadyForCeremony | AuthorizePending | DenyPending | ReadyForPersistence | PatchCandidateState
    | PersistenceAttestedState | WriterAttestedState | ReadyForAdapterReview
    | Confirmed | CheckpointMaster | ExplicitAppend | NamespaceName
    | Renewal | RenewalWithChanges | NonRenewal | Remediation | CapacityRescope | Repricing | IncidentRemediation
    | ServicePause | ServiceTermination
    | ContractContinuity | ContractChange | ServiceOffboarding | ServiceRemediation | CapacityChange
    | CommercialPricingChange
    | ManagedService | PersistedExecutionRecord | DerivedFromActionFamily
    | AuthoritySchema | CapabilityGrant
    | ActionAttestationSchema | ActionWriterSchema | AuthorizationPreflightSchema | ExecutionEnvironmentSchema
    | ActionPersistenceAttested | ActionWriterAttested | ReadyForAuthorizationCeremony | VerifiedState
    | ControlledMode | AuthorizeAction | RenewalReview | RemediationReview | IncidentReview | Healthy | CapacityHold
    | AdapterPlanSchema | EnvironmentSchema | SnapshotSchema | ServiceSchema | DryRunSchema | SyntheticReceiptSchema
    | ReadyForDryRun | DryRunReady | SyntheticReady | SyntheticValid | SyntheticHealthy
    | StateComparisonOnly | DryRunReceipt | OfflineContract | SyntheticProvider | StagingReversalOnly | BoundScopeAndDigest
    | VersionTwo
    | RenewAsIsReview | RenewWithChangesReview | NonRenewalReview | RemediationPlanReview | RescopeCapacityReview
    | RepriceReview | IncidentRemediationReview | PauseServiceReview | TerminationReview
    | AccessLifecyclePlan | AccessRevocationPlan | ArchiveExportBoundary | BillingReviewBoundary | CapacityPlan
    | CapacityReview | CommercialPricingPlan | ContractAmendmentBoundary | CustomerImpactReview
    | CustomerNoticeBoundary | DataRetention | DataSafety | FinopsValidation | IncidentContainmentPlan
    | IrreversibleActionBoundary | OffboardingPlan | OwnerOnlyApprovalBoundary | PackageScopeReview
    | PauseSequencing | PricingBoundary | QuotaBoundary | RemediationReversal | ReversalPath
    | SecurityPrivacyRecheck | ServiceContinuity | ServiceHealthRecheck | ServiceRemediationPlan
    | TerminationSequencingPlan
    | OwnerScope | TenantScope | WorkspaceScope | CustomerScope | PilotScope | PackageScope
    | DiscardChangeset | RestoreBeforeState | ReviewOwnerBoundary | BeforeStateProof | RetentionProof
    | StagingChangeOnly | NoCustomerChange | NoChargeChange

  /** How a timestamp text is written: whole seconds, a fraction of so many digits, some
      other form that ends in `Z`, or one with an offset; the numbers tell apart texts that
      name the same instant. */
  datatype Form = Whole | Fraction(digits: nat) | Zulu(variant: nat) | Offset(variant: nat)

  datatype Value =
    | Null
    | Bool(flag: bool)
    | Int(n: int)
    | Real(r: real)
    | Str(s: string)
    | Text(word: Word)
    | Stamp(us: int, form: Form)
    | PublicKey(id: nat)
    | Sha(of: Value)
    | DerivedId(seed: Value)
    | List(items: seq<Value>)
    | Dict(fields: map<Key, Value>)

  /** `row.get(key)`, where anything but a dictionary is read as an empty one. */
  function Get(row: Value, key: Key): Value {
    if row.Dict? && key in row.fields then row.fields[key] else Null
  }

  const EMPTY: Value := Str("")

  /** `_text(value, limit)`: only free texts can need normalising; the texts that the
      program derives or spells itself are within every limit. */
  function TextOf(v: Value, limit: nat): Value {
    match v
    case Str(s) => Str(T.Text(s, limit))
    case Text(_) => v
    case Stamp(_, _) => v
    case Sha(_) => v
    case DerivedId(_) => v
    case _ => EMPTY
  }

  /** The distinct non-empty texts of a list, each normalised and in order. */
  function DistinctTexts(items: seq<Value>, limit: nat): seq<Value> {
    if items == [] then []
    else
      var before, text := DistinctTexts(items[..|items| - 1], limit), TextOf(items[|items| - 1], limit);
      if text == EMPTY || text in before then before else before + [text]
  }

  predicate Blank(v: Value, limit: nat) { TextOf(v, limit) == EMPTY }

  /** A value that `_text` leaves as it is and that is not empty. */
  predicate Fixed(v: Value, limit: nat) { TextOf(v, limit) == v != EMPTY }

  /** Python's truth of a value. */
  predicate Truthy(v: Value) {
    match v
    case Null => false
    case Bool(flag) => flag
    case Int(n) => n != 0
    case Real(r) => r != 0.0
    case Str(s) => s != ""
    case List(items) => items != []
    case Dict(fields) => fields != map[]
    case _ => true
  }

  datatype ScopeTriple = ScopeTriple(owner: Value, tenant: Value, workspace: Value)

  /** `_scope`. */
  function ScopeOf(row: Value): ScopeTriple {
    ScopeTriple(TextOf(Get(row, OWNER_ID), 120), TextOf(Get(row, TENANT_ID), 120), TextOf(Get(row, WORKSPACE_ID), 120))
  }

  predicate Complete(scope: ScopeTriple) {
    scope.owner != EMPTY && scope.tenant != EMPTY && scope.workspace != EMPTY
  }

  predicate IsAuthority(k: Key) { BUSINESS_ACTION_AUTHORIZED <= k <= EXECUTES_ACTION }

  /** Every authority field of `row` is present and false. */
  predicate NoAuthority(row: Value) {
    forall k: Key | IsAuthority(k) :: Get(row, k) == Bool(false)
  }

  /** The eight digests that the execution preflight carries. */
  predicate IsPreflightDigest(k: Key) { ACTION_RECORD_DIGEST <= k <= EXECUTION_PREFLIGHT_DIGEST }

  /** The lineage digests of an execution record. */
  predicate IsLineageDigest(k: Key) { ACTION_RECORD_DIGEST <= k <= EXECUTION_REQUEST_DIGEST }

  /** The identity fields that every stage repeats. */
  predicate IsIdentity(k: Key) { CUSTOMER_ID <= k <= REVIEW_TYPE }

  predicate IsScopeField(k: Key) { OWNER_ID <= k <= WORKSPACE_ID }

  predicate IsDecision(v: Value) { v == Text(Authorize) || v == Text(Deny) }
}
