/** Honest runs, first half: from a clean preflight to a record in the checkpoint. */
module HonestPlan {
  import opened Wrappers
  import opened Records
  import opened SignedStep
  import opened Checkpoints
  import opened PersistencePlan
  import opened Lineage
  import CP = CommandPlan
  import EC = ExecutionCeremony
  import T = Texts

  // ----------------------------------------------------------------- the request

  /** Identities and scope survive normalisation, so that every stage reads them alike. */
  predicate FixedSubject(row: Value) {
    && (forall k: Key | IsIdentity(k) :: Fixed(Get(row, k), CP.IdentityLimit(k)))
    && (forall k: Key | IsScopeField(k) :: Fixed(Get(row, k), 120))
  }

  /** A clean preflight whose identities are fixed. */
  predicate CleanPreflight(row: Value) {
    EC.PreflightOk(row) && FixedSubject(row) && forall k: Key | IsScopeField(k) :: Get(Get(row, SCOPE), k) == Get(row, k)
  }

  /** What the later stages need of a signed request. */
  predicate CleanRequest(request: Value) {
    && FixedSubject(request) && IsDecision(Get(request, DECISION))
    && (forall k: Key | IsPreflightDigest(k) :: Get(request, k).Sha?)
  }

  lemma {:induction false} RequestSubject(preflight: Value, t: Terms, fingerprint: Value, k: Key)
    requires IsSubject(k)
    ensures Get(EC.Body(preflight, t, fingerprint), k)
         == if IsScopeField(k) then TextOf(Get(Get(preflight, SCOPE), k), 120)
            else TextOf(Get(preflight, k), CP.IdentityLimit(k))
  {
  }

  lemma {:induction false} RequestSubjects(preflight: Value, t: Terms, fingerprint: Value)
    requires FixedSubject(preflight)
    requires forall k: Key | IsScopeField(k) :: Get(Get(preflight, SCOPE), k) == Get(preflight, k)
    ensures forall k: Key | IsSubject(k) :: Get(EC.Body(preflight, t, fingerprint), k) == Get(preflight, k)
  {
    forall k: Key | IsSubject(k)
      ensures Get(EC.Body(preflight, t, fingerprint), k) == Get(preflight, k)
    {
      RequestSubject(preflight, t, fingerprint, k);
      if IsIdentity(k) { assert Fixed(Get(preflight, k), CP.IdentityLimit(k)); }
      if IsScopeField(k) { assert Fixed(Get(preflight, k), 120); }
    }
  }

  lemma {:induction false} RequestDecision(preflight: Value, t: Terms, fingerprint: Value)
    ensures Get(EC.Body(preflight, t, fingerprint), DECISION) == t.decision
  {
  }

  lemma {:induction false} SameSubjectIsFixed(row: Value, other: Value)
    requires FixedSubject(row) && forall k: Key | IsSubject(k) :: Get(other, k) == Get(row, k)
    ensures FixedSubject(other)
  {
  }

  lemma {:induction false} RequestIsClean(preflight: Value, t: Terms, fingerprint: Value)
    requires CleanPreflight(preflight) && IsDecision(t.decision)
    ensures var request := EC.Body(preflight, t, fingerprint);
            && CleanRequest(request) && Get(request, DECISION) == t.decision
            && (forall k: Key | IsSubject(k) || IsPreflightDigest(k) :: Get(request, k) == Get(preflight, k))
  {
    var request := EC.Body(preflight, t, fingerprint);
    RequestDecision(preflight, t, fingerprint);
    RequestSubjects(preflight, t, fingerprint);
    RequestDigests(preflight, t, fingerprint);
    SameSubjectIsFixed(preflight, request);
  }

  // -------------------------------------------------------------------- the plan

  lemma {:induction false} DecisionFlags(request: Value)
    ensures var row := EC.VerifiedDecision(request);
            && Get(row, SCHEMA) == Text(ResultSchema) && Get(row, STATE) == EC.DecisionState(Get(request, DECISION))
            && Get(row, OWNER_IDENTITY_VERIFIED) == Bool(true) && Get(row, OWNER_SIGNATURE_VERIFIED) == Bool(true)
            && Get(row, DECISION_VERIFIED) == Bool(true) && Get(row, REQUIRES_RECORD_PERSISTENCE) == Bool(true)
            && Get(row, GENERIC_CHAT_ACCEPTED) == Bool(false) && RecordFlagsFalse(row)
  {
  }

  lemma {:induction false} DecisionIntent(request: Value)
    ensures var row := EC.VerifiedDecision(request);
            && Get(row, AUTHORIZATION_INTENT) == Bool(Get(request, DECISION) == Text(Authorize))
            && Get(row, DENIAL_INTENT) == Bool(Get(request, DECISION) != Text(Authorize))
            && Get(row, REQUESTED_CHOICE) == Get(request, REQUESTED_CHOICE)
            && Get(row, ACTION_FAMILY) == Get(request, ACTION_FAMILY)
  {
  }

  lemma {:induction false} RecordFlags(request: Value)
    ensures var record := EC.Record(request);
            && Get(record, SCHEMA) == Text(ResultSchema)
            && Get(record, STATE) == EC.DecisionState(Get(request, DECISION))
            && Get(record, EXECUTION_DECISION) == Get(request, DECISION)
            && Get(record, OWNER_SIGNATURE_VERIFIED) == Bool(true) && Get(record, DECISION_VERIFIED) == Bool(true)
            && RecordFlagsFalse(record)
  {
  }

  lemma {:induction false} HonestDecision(request: Value)
    requires CleanRequest(request)
    ensures DecisionOk(EC.VerifiedDecision(request))
    ensures DecisionOf(EC.VerifiedDecision(request)) == Get(request, DECISION)
    ensures ChoiceOf(EC.VerifiedDecision(request)) == Get(request, REQUESTED_CHOICE)
    ensures FamilyOf(EC.VerifiedDecision(request)) == Get(request, ACTION_FAMILY)
  {
    DecisionFields(request);
    DecisionFlags(request);
    DecisionIntent(request);
    assert Fixed(Get(request, REQUESTED_CHOICE), 120) && Fixed(Get(request, ACTION_FAMILY), 120);
  }

  /** A normalised text within a limit is also normalised within a larger one. */
  lemma {:induction false} FixedWithin(v: Value, limit: nat, larger: nat)
    requires Fixed(v, limit) && limit <= larger
    ensures Fixed(v, larger)
  {
    if v.Str? { TextWithin(v.s, limit, larger); }
  }

  lemma {:induction false} TextWithin(s: string, limit: nat, larger: nat)
    requires T.Text(s, limit) == s && limit <= larger
    ensures T.Text(s, larger) == s
  {
    T.NormalIsSpaced(T.DropNul(s));
    T.IdentityIsTextFixpoint(s, limit);
  }

  lemma {:induction false} HonestRecord(request: Value)
    requires CleanRequest(request)
    ensures RecordOk(EC.VerifiedDecision(request), EC.Record(request))
  {
    var row, record := EC.VerifiedDecision(request), EC.Record(request);
    HonestDecision(request);
    DecisionFields(request);
    DecisionFlags(request);
    RecordFields(request);
    RecordFlags(request);
    assert SCHEMA in record.fields;
    forall k: Key | OWNER_ID <= k <= REVIEW_TYPE
      ensures !Blank(Get(record, k), 160)
    {
      assert IsSubject(k);
      FixedWithin(Get(request, k), if IsIdentity(k) then CP.IdentityLimit(k) else 120, 160);
    }
    forall k: Key | IsLineageDigest(k)
      ensures Get(record, k).Sha?
    {
      if IsPreflightDigest(k) { assert Get(request, k).Sha?; }
    }
  }

  /** A clean verified decision can always be planned on a readable checkpoint. */
  lemma {:induction false} HonestPlanIsReady(request: Value, master: Master)
    requires CleanRequest(request) && Reconstruct(master).Some?
    ensures BuildPlan(EC.VerifiedDecision(request), master)
         == Some(PlanFor(EC.VerifiedDecision(request), Reconstruct(master).value))
  {
    HonestDecision(request);
    HonestRecord(request);
    DecisionFields(request);
  }
}
