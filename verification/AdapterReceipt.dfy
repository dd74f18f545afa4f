/** The synthetic receipt V2: accepted only against a dry run that rebuilds to itself, and
    only from the moment it was received until the simulation expires. */
module AdapterReceipt {
  import opened Wrappers
  import opened Records
  import opened InputGuard
  import opened AdapterPlan
  import opened AdapterDryRun
  import SS = SignedStep

  predicate IsFree(k: Key) {
    TIMESTAMP <= k <= PROVIDER_IDENTITY_REF || k == RECEIPT_DIGEST
  }

  predicate InRow(k: Key) {
    || IsFree(k) || k == SCHEMA || CUSTOMER_ID <= k <= PILOT_ID || ACTION_FAMILY <= k <= PACKAGE
    || k == COMMAND_PLAN_DIGEST || k == EVIDENCE_REFS || ADAPTER_PLAN_DIGEST <= k <= BINDING
    || k == IDEMPOTENCY_KEY_DIGEST || k == ROLLBACK_PLAN_DIGEST || k == SYNTHETIC || k == DRY_RUN_DIGEST
    || BEFORE_STATE_DIGEST <= k <= AFTER_STATE_DIGEST || k == OWNER_AUTHORIZATION_DIGEST || IsAdapterFalse(k)
  }

  /** `owner_execution_binding_digest_v2`. */
  function OwnerDigest(binding: Value): Value {
    Sha(Dict(map[SCOPE := Get(binding, SCOPE), EXECUTION_REQUEST_DIGEST := Get(binding, EXECUTION_REQUEST_DIGEST),
                 EXECUTION_RECORD_DIGEST := Get(binding, EXECUTION_RECORD_DIGEST),
                 WRITER_REQUEST_DIGEST := Get(binding, INTENT_WRITER_REQUEST_DIGEST),
                 COMMAND_PLAN_DIGEST := Get(binding, COMMAND_PLAN_DIGEST)]))
  }

  /** The value that a receipt must carry under a key that is not free. */
  function Bound(simulation: Value, dryRun: Value, k: Key): Value {
    var binding := Get(simulation, BINDING);
    if k == SCHEMA then Text(SyntheticReceiptSchema)
    else if k == SYNTHETIC then Bool(true)
    else if IsAdapterFalse(k) then Bool(false)
    else if k == DRY_RUN_DIGEST then Get(dryRun, DRY_RUN_DIGEST)
    else if k == OWNER_AUTHORIZATION_DIGEST then OwnerDigest(binding)
    else if IsIdentity(k) || k == COMMAND_PLAN_DIGEST then Get(binding, k)
    else Get(simulation, k)
  }

  const MARK: string := "synthetic:"

  predicate SyntheticRef(v: Value) {
    SS.IsToken(v, 1, 160) && |v.s| >= |MARK| && v.s[..|MARK|] == MARK
  }

  /** Everything about the receipt but the moment of the check. */
  predicate RowFits(row: Value, simulation: Value, dryRun: Value) {
    && row.Dict? && (forall k: Key :: k in row.fields <==> InRow(k))
    && (forall k: Key | InRow(k) && !IsFree(k) :: Get(row, k) == Bound(simulation, dryRun, k))
    && SyntheticRef(Get(row, WRITER_IDENTITY_REF)) && SyntheticRef(Get(row, PROVIDER_IDENTITY_REF))
    && Get(row, RECEIPT_DIGEST) == Sha(Dict(row.fields - {RECEIPT_DIGEST}))
  }

  predicate InTime(row: Value, simulation: Value, now: Value) {
    var observed, received, expires := Get(simulation, OBSERVED_AT), Get(row, TIMESTAMP), Get(simulation, EXPIRES_AT);
    && IsWhole(observed) && IsWhole(received) && IsWhole(expires) && IsWhole(now)
    && observed.us <= received.us <= now.us < expires.us
  }

  /** What a receipt is checked against. */
  datatype Evidence = Evidence(plan: Value, dryRun: Value, capabilities: Value, provider: Value, service: Value)

  function SimulationOf(e: Evidence): Option<Value> {
    ValidateDryRun(e.dryRun, e.plan, e.capabilities, e.provider, e.service,
                   Get(Get(e.dryRun, SIMULATION), OBSERVED_AT))
  }

  /** `validate_synthetic_owner_renewal_action_receipt_v2`. */
  predicate Accepts(row: Value, e: Evidence, now: Value) {
    && SafeInput(List([row, e.plan, e.dryRun, e.capabilities, e.provider, e.service]))
    && var simulation := SimulationOf(e);
       simulation.Some? && RowFits(row, simulation.value, e.dryRun) && InTime(row, simulation.value, now)
  }

  // --------------------------------------------------------------- exact binding

  /** Two receipts accepted for one dry run agree on everything but the timestamp, the two
      synthetic references and the digest over them. */
  lemma {:induction false} ReceiptsAgree(
    a: Value, b: Value, e: Evidence, now1: Value, now2: Value)
    requires Accepts(a, e, now1) && Accepts(b, e, now2)
    ensures a.Dict? && b.Dict? && a.fields.Keys == b.fields.Keys
    ensures forall k: Key | !IsFree(k) :: Get(a, k) == Get(b, k)
    ensures (forall k: Key | TIMESTAMP <= k <= PROVIDER_IDENTITY_REF :: Get(a, k) == Get(b, k)) ==> a == b
  {
    var simulation := SimulationOf(e).value;
    SameKeys(a, b);
    SameBound(a, b, simulation, e.dryRun);
    if forall k: Key | TIMESTAMP <= k <= PROVIDER_IDENTITY_REF :: Get(a, k) == Get(b, k) {
      SameBodySameRow(a, b);
    }
  }

  lemma {:induction false} SameKeys(a: Value, b: Value)
    requires a.Dict? && b.Dict?
    requires (forall k: Key :: k in a.fields <==> InRow(k)) && (forall k: Key :: k in b.fields <==> InRow(k))
    ensures a.fields.Keys == b.fields.Keys
  {
  }

  lemma {:induction false} SameBound(a: Value, b: Value, simulation: Value, dryRun: Value)
    requires RowFits(a, simulation, dryRun) && RowFits(b, simulation, dryRun)
    ensures forall k: Key | !IsFree(k) :: Get(a, k) == Get(b, k)
  {
    forall k: Key | !IsFree(k)
      ensures Get(a, k) == Get(b, k)
    {
      if InRow(k) { assert Get(a, k) == Bound(simulation, dryRun, k) == Get(b, k); }
    }
  }

  lemma {:induction false} SameBodySameRow(a: Value, b: Value)
    requires a.Dict? && b.Dict? && a.fields.Keys == b.fields.Keys
    requires forall k: Key | k != RECEIPT_DIGEST :: Get(a, k) == Get(b, k)
    requires Get(a, RECEIPT_DIGEST) == Sha(Dict(a.fields - {RECEIPT_DIGEST}))
    requires Get(b, RECEIPT_DIGEST) == Sha(Dict(b.fields - {RECEIPT_DIGEST}))
    ensures a == b
  {
    forall k: Key | k in a.fields && k != RECEIPT_DIGEST
      ensures a.fields[k] == b.fields[k]
    {
      assert Get(a, k) == Get(b, k);
    }
    assert a.fields - {RECEIPT_DIGEST} == b.fields - {RECEIPT_DIGEST};
    forall k: Key | k in a.fields
      ensures a.fields[k] == b.fields[k]
    {
      assert Get(a, k) == a.fields[k] && Get(b, k) == b.fields[k];
    }
  }

  // ----------------------------------------------------------- exact acceptance

  predicate Between(later: Value, received: Value, expires: Value) {
    IsWhole(later) && received.Stamp? && expires.Stamp? && received.us <= later.us < expires.us
  }

  lemma {:induction false} TimesDecide(row: Value, simulation: Value, now: Value, later: Value)
    requires InTime(row, simulation, now)
    ensures InTime(row, simulation, later) <==> Between(later, Get(row, TIMESTAMP), Get(simulation, EXPIRES_AT))
  {
  }

  lemma {:induction false} OnlyTimeMatters(
    row: Value, e: Evidence, simulation: Value, now: Value, later: Value)
    requires Accepts(row, e, now) && SimulationOf(e) == Some(simulation)
    ensures Accepts(row, e, later) <==> InTime(row, simulation, later)
    ensures InTime(row, simulation, now)
  {
  }

  /** A receipt that is accepted at all is accepted exactly from the second it was received
      until the simulation expires. */
  lemma {:induction false} AcceptedExactlyUntilExpiry(
    row: Value, e: Evidence, simulation: Value, now: Value, later: Value)
    requires Accepts(row, e, now) && SimulationOf(e) == Some(simulation)
    ensures Accepts(row, e, later) <==> Between(later, Get(row, TIMESTAMP), Get(simulation, EXPIRES_AT))
  {
    OnlyTimeMatters(row, e, simulation, now, later);
    TimesDecide(row, simulation, now, later);
  }

  /** Acceptance at a time implies that the time is less than three minutes after the
      environment was observed. */
  lemma {:induction false} AcceptedWithinThreeMinutes(row: Value, e: Evidence, now: Value)
    requires Accepts(row, e, now)
    ensures var environment := Get(Get(e.plan, ADAPTER_PLAN), ENVIRONMENT);
            && Get(environment, AS_OF).Stamp? && Get(environment, EXPIRES_AT).Stamp? && now.Stamp?
            && Get(environment, AS_OF).us <= now.us < Get(environment, EXPIRES_AT).us
            && now.us < Get(environment, AS_OF).us + MAX_WINDOW
  {
    var observed := Get(Get(e.dryRun, SIMULATION), OBSERVED_AT);
    ValidatedSimulation(e.dryRun, e.plan, e.capabilities, e.provider, e.service, observed);
    SimulationWindow(e.plan, e.capabilities, e.provider, e.service, observed);
    AcceptedIsCanonical(e.plan, observed);
  }
}
