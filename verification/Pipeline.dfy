/** Whole runs of the signed pipeline: each stage consumes artifacts that earlier stages
    produced, and everything else (preflights, requests, signatures, masters, receipts,
    times) comes from outside and is arbitrary. */
module Pipeline {
  import opened Wrappers
  import opened Records
  import opened Nonces
  import opened SignedStep
  import opened Checkpoints
  import opened Lineage
  import opened SingleUse
  import PP = PersistencePlan
  import PA = PersistenceAttestation
  import CP = CommandPlan
  import EC = ExecutionCeremony
  import WA = WriterAttestation

  datatype Planned = Planned(decision: Call, master: Master, value: Value)

  datatype Proof = Proof(
    plan: Planned, prior: Master, observed: Master, receipt: Value, now: Value, clock: Value, value: Value)

  datatype Commanded = Commanded(proof: Proof, acknowledgement: Call, preflight: Value, value: Value)

  /** The registry, and the artifacts in a positive state issued so far. */
  datatype Office = Office(
    claims: Claims, decisions: set<Call>, acknowledgements: set<Call>, plans: set<Planned>, proofs: set<Proof>,
    commands: set<Commanded>)

  /** A step names the artifacts that it consumes and the one that it issues; a stage that
      is blocked issues nothing. */
  datatype Step = Claim(call: Call) | Plan(plan: Planned) | Attest(proof: Proof) | Command(command: Commanded)

  /** What the stages do: the claim that a call makes, when it is granted, and when a plan,
      a proof or a command is the one that its stage computes. */
  datatype Rules = Rules(
    attempt: Call -> Attempt, granted: (Claims, Call) -> bool, plan: Planned -> bool, proof: Proof -> bool,
    command: Commanded -> bool)

  predicate Enabled(r: Rules, o: Office, step: Step) {
    match step
    case Claim(_) => true
    case Plan(p) => p.decision in o.decisions && r.plan(p)
    case Attest(p) => p.plan in o.plans && r.proof(p)
    case Command(c) => c.proof in o.proofs && c.acknowledgement in o.acknowledgements && r.command(c)
  }

  function Next(r: Rules, o: Office, step: Step): Office {
    match step
    case Claim(e) =>
      o.(claims := ClaimsAfter(o.claims, r.attempt(e)),
         decisions := if e.Decide? && r.granted(o.claims, e) then o.decisions + {e} else o.decisions,
         acknowledgements :=
           if e.Acknowledge? && r.granted(o.claims, e) then o.acknowledgements + {e} else o.acknowledgements)
    case Plan(p) => o.(plans := o.plans + {p})
    case Attest(p) => o.(proofs := o.proofs + {p})
    case Command(c) => o.(commands := o.commands + {c})
  }

  function After(r: Rules, claims: Claims, steps: seq<Step>): Office {
    if steps == [] then Office(claims, {}, {}, {}, {}, {})
    else Next(r, After(r, claims, steps[..|steps| - 1]), steps[|steps| - 1])
  }

  predicate ValidRun(r: Rules, claims: Claims, steps: seq<Step>) {
    steps == []
    || (ValidRun(r, claims, steps[..|steps| - 1])
        && Enabled(r, After(r, claims, steps[..|steps| - 1]), steps[|steps| - 1]))
  }

  /** Every artifact follows its rule from artifacts that are there too. */
  ghost predicate Sound(r: Rules, signed: Call -> bool, o: Office) {
    && (forall e | e in o.decisions :: e.Decide? && signed(e))
    && (forall e | e in o.acknowledgements :: e.Acknowledge? && signed(e))
    && (forall p | p in o.plans :: r.plan(p) && p.decision in o.decisions)
    && (forall p | p in o.proofs :: r.proof(p) && p.plan in o.plans)
    && (forall c | c in o.commands :: r.command(c) && c.proof in o.proofs && c.acknowledgement in o.acknowledgements)
  }

  lemma {:induction false} EveryOfficeIsSound(r: Rules, signed: Call -> bool, claims: Claims, steps: seq<Step>)
    requires ValidRun(r, claims, steps)
    requires forall table: Claims, e: Call :: r.granted(table, e) && (e.Decide? || e.Acknowledge?) ==> signed(e)
    ensures Sound(r, signed, After(r, claims, steps))
  {
    if steps != [] { EveryOfficeIsSound(r, signed, claims, steps[..|steps| - 1]); }
  }

  // ------------------------------------------------------------- the actual stages

  predicate Granted(claims: Claims, e: Call) {
    Passed(e) && OutcomeOf(claims, AttemptBy(e)) == Outcome.Granted
  }

  predicate DecisionOk(e: Call) {
    e.Decide? && Canonical(EC.Ceremony(), e.request, e.signature, e.source, e.roots, e.now)
  }

  predicate AcknowledgementOk(e: Call) {
    e.Acknowledge? && Canonical(WA.Attestation(), e.request, e.signature, e.source, e.roots, e.now)
  }

  predicate SignedOk(e: Call) { DecisionOk(e) || AcknowledgementOk(e) }

  predicate PlanOk(p: Planned) {
    p.decision.Decide? && PP.BuildPlan(EC.VerifiedDecision(p.decision.request), p.master) == Some(p.value)
  }

  predicate ProofOk(p: Proof) {
    PA.Attest(p.plan.value, p.prior, p.observed, p.receipt, p.now, p.clock) == Some(p.value)
  }

  predicate CommandOk(c: Commanded) {
    && c.acknowledgement.Acknowledge?
    && CP.BuildV2(c.proof.value, WA.AttestedWriter(c.acknowledgement.request), c.preflight) == Some(c.value)
  }

  function Stages(): Rules { Rules(AttemptBy, Granted, PlanOk, ProofOk, CommandOk) }

  lemma {:induction false} GrantedIsSigned(claims: Claims, e: Call)
    requires Granted(claims, e)
    ensures e.Decide? ==> DecisionOk(e)
    ensures e.Acknowledge? ==> AcknowledgementOk(e)
  {
    EC.CeremonyIsLawful();
    WA.AttestationIsLawful();
    if e.Decide? {
      CheckIsRebuild(EC.Ceremony(), e.request, e.signature, e.source, e.roots, e.now);
    } else if e.Acknowledge? {
      CheckIsRebuild(WA.Attestation(), e.request, e.signature, e.source, e.roots, e.now);
    }
  }

  lemma {:induction false} GrantsAreSigned()
    ensures forall table: Claims, e: Call ::
              Stages().granted(table, e) && (e.Decide? || e.Acknowledge?) ==> SignedOk(e)
  {
    forall table: Claims, e: Call | Granted(table, e) && (e.Decide? || e.Acknowledge?)
      ensures SignedOk(e)
    {
      GrantedIsSigned(table, e);
    }
  }

  // ------------------------------------------------------------------ the lineage

  /** What a signed decision request says about its preflight. */
  lemma {:induction false} SignedRequest(e: Call)
    requires DecisionOk(e)
    ensures IsDecision(Get(e.request, DECISION)) && EC.PreflightOk(e.source)
    ensures forall k: Key | IsPreflightDigest(k) :: Get(e.request, k).Sha?
  {
    EC.CeremonyIsLawful();
    var t := TermsIn(EC.Ceremony(), e.request);
    var fingerprint := Fingerprint(Available(e.roots, t.keyId, t.keyVersion, e.now).value);
    assert e.request == EC.Body(e.source, t, fingerprint);
    RequestDigests(e.source, t, fingerprint);
  }

  /** A writer's canonical request repeats the digest of the receipt that it was built
      from, and a receipt is determined by its digest. */
  lemma {:induction false} AcknowledgedReceipt(e: Call, receipt: Value)
    requires AcknowledgementOk(e) && receipt.Dict? && Get(receipt, RECEIPT_DIGEST) == Sha(WA.ReceiptBody(receipt))
    requires TextOf(Get(e.request, RECEIPT_DIGEST), 180) == TextOf(Get(receipt, RECEIPT_DIGEST), 180)
    ensures e.source == receipt
  {
    var t := TermsIn(WA.Attestation(), e.request);
    var fingerprint := Fingerprint(Available(e.roots, t.keyId, t.keyVersion, e.now).value);
    assert e.request == WA.Body(e.source, t, fingerprint);
    RepeatedReceipt(e.source, t, fingerprint);
    assert WA.ReceiptOk(e.source);
    SameReceipt(e.source, receipt);
  }

  lemma {:induction false} RepeatedReceipt(receipt: Value, t: Terms, fingerprint: Value)
    ensures Get(WA.Body(receipt, t, fingerprint), RECEIPT_DIGEST) == Get(receipt, RECEIPT_DIGEST)
  {
  }

  lemma {:induction false} SameReceipt(a: Value, b: Value)
    requires WA.ReceiptOk(a) && b.Dict? && Get(b, RECEIPT_DIGEST) == Sha(WA.ReceiptBody(b))
    requires Get(a, RECEIPT_DIGEST) == Get(b, RECEIPT_DIGEST)
    ensures a == b
  {
    assert Get(a, SCHEMA) != Null;
    var body := a.fields - {RECEIPT_DIGEST};
    assert body == b.fields - {RECEIPT_DIGEST};
    assert a.fields == body[RECEIPT_DIGEST := Get(a, RECEIPT_DIGEST)];
    assert b.fields == body[RECEIPT_DIGEST := Get(a, RECEIPT_DIGEST)];
  }

  lemma {:induction false} ProofDescends(p: Proof)
    requires DecisionOk(p.plan.decision) && PlanOk(p.plan) && ProofOk(p)
    ensures var request := p.plan.decision.request;
            && Repeats(p.plan.value, request) && Repeats(p.value, request) && RepeatsLineage(p.value, request)
            && NoAuthority(p.plan.value) && NoAuthority(p.value)
  {
    var request := p.plan.decision.request;
    SignedRequest(p.plan.decision);
    PlanDescends(request, p.plan.master);
    AttestationDescends(request, p.plan.value, p.prior, p.observed, p.receipt);
  }

  /** An attested result repeats the digest of its receipt, which is the digest of the
      rest of that receipt. */
  lemma {:induction false} AttestedReceipt(p: Proof)
    requires ProofOk(p)
    ensures p.receipt.Dict? && Get(p.receipt, RECEIPT_DIGEST) == Sha(WA.ReceiptBody(p.receipt))
    ensures Get(p.value, RECEIPT_DIGEST) == Get(p.receipt, RECEIPT_DIGEST)
  {
    AttestedBinding(p.plan.value, p.prior, p.observed, p.receipt);
  }

  /** A command plan whose decision and acknowledgement were signed carries exactly the
      subject and the digests of the owner's request, which must be an authorisation; and
      the acknowledgement was built from the very receipt that was attested. */
  lemma {:induction false} CommandIsAuthorized(c: Commanded)
    requires DecisionOk(c.proof.plan.decision) && PlanOk(c.proof.plan) && ProofOk(c.proof) && CommandOk(c)
    requires AcknowledgementOk(c.acknowledgement)
    ensures var request := c.proof.plan.decision.request;
            && Get(request, DECISION) == Text(Authorize)
            && PlanOf(Get(c.value, COMMAND_PLAN), request, c.acknowledgement.request)
            && (forall k: Key | IsPreflightDigest(k) :: Get(c.preflight, k) == Get(request, k))
    ensures c.acknowledgement.source == c.proof.receipt
    ensures NoAuthority(c.proof.plan.value) && NoAuthority(c.proof.value) && NoAuthority(c.value)
  {
    ProofDescends(c.proof);
    CommandDescends(c.proof.value, c.proof.plan.decision.request, c.acknowledgement.request, c.preflight);
    AttestedReceipt(c.proof);
    AcknowledgedReceipt(c.acknowledgement, c.proof.receipt);
  }

  lemma {:induction false} CommandsAreTraceable(claims: Claims, steps: seq<Step>, c: Commanded)
    requires ValidRun(Stages(), claims, steps) && c in After(Stages(), claims, steps).commands
    ensures var o := After(Stages(), claims, steps);
            && c.proof in o.proofs && c.proof.plan in o.plans && c.proof.plan.decision in o.decisions
            && c.acknowledgement in o.acknowledgements
    ensures DecisionOk(c.proof.plan.decision) && AcknowledgementOk(c.acknowledgement)
    ensures PlanOk(c.proof.plan) && ProofOk(c.proof) && CommandOk(c)
  {
    GrantsAreSigned();
    EveryOfficeIsSound(Stages(), SignedOk, claims, steps);
    var o := After(Stages(), claims, steps);
    assert c.proof in o.proofs && Stages().command(c);
    assert c.proof.plan in o.plans && Stages().proof(c.proof);
    assert c.proof.plan.decision in o.decisions && Stages().plan(c.proof.plan);
    assert SignedOk(c.proof.plan.decision) && SignedOk(c.acknowledgement);
  }

  /** In every run, a command plan exists only if an owner key signed a request whose
      decision is to authorise, and the plan carries exactly the subject and the digests of
      that request; a writer key signed the acknowledgement that it names; the decision's
      record was attested in the checkpoint with the very receipt that the writer signed for;
      and nothing on the way authorises anything. */
  lemma {:induction false} CommandsDescendFromSignatures(claims: Claims, steps: seq<Step>, c: Commanded)
    requires ValidRun(Stages(), claims, steps) && c in After(Stages(), claims, steps).commands
    ensures var o := After(Stages(), claims, steps);
            c.proof.plan.decision in o.decisions && c.acknowledgement in o.acknowledgements
    ensures DecisionOk(c.proof.plan.decision) && AcknowledgementOk(c.acknowledgement)
    ensures var request := c.proof.plan.decision.request;
            && Get(request, DECISION) == Text(Authorize)
            && PlanOf(Get(c.value, COMMAND_PLAN), request, c.acknowledgement.request)
            && (forall k: Key | IsPreflightDigest(k) :: Get(c.preflight, k) == Get(request, k))
    ensures ProofOk(c.proof) && c.acknowledgement.source == c.proof.receipt
    ensures NoAuthority(c.proof.plan.value) && NoAuthority(c.proof.value) && NoAuthority(c.value)
  {
    CommandsAreTraceable(claims, steps, c);
    CommandIsAuthorized(c);
  }

  // ------------------------------------------------------------------- single use

  /** An attempt with no nonce: the registry refuses to look at it. */
  function Idle(): Attempt { Attempt(EMPTY, Null, Null, Null) }

  /** The step as a call of a single-use run; the other stages claim nothing. */
  function CallBy(step: Step): Call { if step.Claim? then step.call else Elsewhere(Idle()) }

  function Calls(steps: seq<Step>): (calls: seq<Call>)
    ensures |calls| == |steps|
    ensures forall i | 0 <= i < |steps| :: calls[i] == CallBy(steps[i])
  {
    if steps == [] then [] else Calls(steps[..|steps| - 1]) + [CallBy(steps[|steps| - 1])]
  }

  function AttemptIn(attempt: Call -> Attempt, step: Step): Attempt {
    if step.Claim? then attempt(step.call) else Idle()
  }

  lemma {:induction false} ClaimsFollow(r: Rules, claims: Claims, steps: seq<Step>, attempts: seq<Attempt>, n: nat)
    requires n <= |steps| == |attempts|
    requires forall i | 0 <= i < |steps| :: attempts[i] == AttemptIn(r.attempt, steps[i])
    ensures After(r, claims, steps[..n]).claims == ClaimsAt(claims, attempts, n)
  {
    if n > 0 {
      ClaimsFollow(r, claims, steps, attempts, n - 1);
      assert steps[..n][..n - 1] == steps[..n - 1];
    }
  }

  lemma {:induction false} StagesFollow(claims: Claims, steps: seq<Step>, n: nat)
    requires n <= |steps|
    ensures After(Stages(), claims, steps[..n]).claims == ClaimsAt(claims, Attempts(Calls(steps)), n)
  {
    var attempts := Attempts(Calls(steps));
    forall i | 0 <= i < |steps|
      ensures attempts[i] == AttemptIn(Stages().attempt, steps[i])
    {
      assert attempts[i] == AttemptBy(CallBy(steps[i]));
    }
    ClaimsFollow(Stages(), claims, steps, attempts, n);
  }

  /** The n-th step is a verification that ends in its positive state. */
  predicate IssuedAt(claims: Claims, steps: seq<Step>, n: nat)
    requires n < |steps|
  {
    steps[n].Claim? && Granted(After(Stages(), claims, steps[..n]).claims, steps[n].call)
  }

  /** In every run whose clock does not go back, each signed body is accepted once. */
  lemma {:induction false} EachRequestIsSpentOnce(claims: Claims, steps: seq<Step>, i: nat, j: nat)
    requires ClockRuns(Calls(steps)) && i < j < |steps| && SameBody(CallBy(steps[i]), CallBy(steps[j]))
    requires IssuedAt(claims, steps, i)
    ensures !IssuedAt(claims, steps, j)
  {
    StagesFollow(claims, steps, i);
    StagesFollow(claims, steps, j);
    VerifiedOnce(claims, Calls(steps), i, j);
  }
}
