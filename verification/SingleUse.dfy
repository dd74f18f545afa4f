/** Single use over whole runs: any number of verifications of the three kinds, and any
    other claims, against one registry whose clock does not run backwards. */
module SingleUse {
  import opened Wrappers
  import opened Records
  import opened Nonces
  import opened SignedStep
  import EC = ExecutionCeremony
  import WA = WriterAttestation
  import AV = AuthorityVerifier

  datatype Call =
    | Decide(request: Value, signature: Signature, source: Value, roots: TrustRoots, now: Value)
    | Acknowledge(request: Value, signature: Signature, source: Value, roots: TrustRoots, now: Value)
    | Grant(request: Value, signature: Signature, roots: TrustRoots, now: Value, expected: Value)
    | Elsewhere(attempt: Attempt)

  /** The event passed every check that comes before the nonce. */
  predicate Passed(e: Call) {
    match e
    case Decide(request, signature, source, roots, now) =>
      Check(EC.Ceremony(), request, signature, source, roots, now).Success?
    case Acknowledge(request, signature, source, roots, now) =>
      Check(WA.Attestation(), request, signature, source, roots, now).Success?
    case Grant(request, signature, roots, now, expected) => AV.Accepted(request, signature, roots, now, expected)
    case Elsewhere(_) => true
  }

  function ClaimBy(e: Call): Attempt {
    match e
    case Decide(request, _, _, _, now) => ClaimOf(EC.Ceremony(), request, now)
    case Acknowledge(request, _, _, _, now) => ClaimOf(WA.Attestation(), request, now)
    case Grant(request, _, _, now, _) => AV.ClaimFor(request, now)
    case Elsewhere(attempt) => attempt
  }

  function TimeOf(e: Call): Value {
    match e
    case Decide(_, _, _, _, now) => now
    case Acknowledge(_, _, _, _, now) => now
    case Grant(_, _, _, now, _) => now
    case Elsewhere(attempt) => attempt.now
  }

  /** A refused event claims nothing: the registry does not even read the clock. */
  function AttemptBy(e: Call): Attempt {
    if Passed(e) then ClaimBy(e) else Attempt(EMPTY, Null, Null, TimeOf(e))
  }

  function Attempts(events: seq<Call>): (attempts: seq<Attempt>)
    ensures |attempts| == |events|
    ensures forall i | 0 <= i < |events| :: attempts[i] == AttemptBy(events[i])
  {
    if events == [] then [] else Attempts(events[..|events| - 1]) + [AttemptBy(events[|events| - 1])]
  }

  predicate VerifiedAt(start: Claims, events: seq<Call>, n: nat)
    requires n < |events|
  {
    Passed(events[n]) && GrantedAt(start, Attempts(events), n)
  }

  ghost predicate ClockRuns(events: seq<Call>) {
    forall i, j | 0 <= i < j < |events| && TimeOf(events[i]).Stamp? && TimeOf(events[j]).Stamp? ::
      TimeOf(events[i]).us <= TimeOf(events[j]).us
  }

  /** The same kind of verification presented with the same signed body. */
  predicate SameBody(a: Call, b: Call) {
    match (a, b)
    case (Decide(r, _, _, _, _), Decide(s, _, _, _, _)) => r == s
    case (Acknowledge(r, _, _, _, _), Acknowledge(s, _, _, _, _)) => r == s
    case (Grant(r, _, _, _, _), Grant(s, _, _, _, _)) => r == s
    case _ => false
  }

  lemma {:induction false} TimesAreKept(e: Call)
    ensures AttemptBy(e).now == TimeOf(e)
  {
  }

  lemma {:induction false} SameBodySameClaim(a: Call, b: Call)
    requires SameBody(a, b) && Passed(a) && Passed(b)
    ensures AttemptBy(a) == AttemptBy(b).(now := TimeOf(a))
  {
  }

  /** Each request body is verified at most once, whatever signatures, sources and keys it
      is presented with, and although the registry drops entries as they expire. */
  lemma {:induction false} VerifiedOnce(start: Claims, events: seq<Call>, i: nat, j: nat)
    requires ClockRuns(events) && i < j < |events| && SameBody(events[i], events[j])
    requires VerifiedAt(start, events, i)
    ensures !VerifiedAt(start, events, j)
  {
    var attempts := Attempts(events);
    if Passed(events[j]) {
      forall a, b | 0 <= a < b < |attempts| && attempts[a].now.Stamp? && attempts[b].now.Stamp?
        ensures attempts[a].now.us <= attempts[b].now.us
      {
        TimesAreKept(events[a]);
        TimesAreKept(events[b]);
      }
      SameBodySameClaim(events[i], events[j]);
      GrantedOnce(start, attempts, i, j);
    }
  }

  /** The registry changes only at an event that passed all its checks; for the two
      ceremonies that means a canonical request with a valid signature. */
  lemma {:induction false} OnlySignedRequestsAreSpent(start: Claims, events: seq<Call>, n: nat)
    requires n < |events|
    requires ClaimsAt(start, Attempts(events), n + 1) != ClaimsAt(start, Attempts(events), n)
    ensures Passed(events[n]) && GrantedAt(start, Attempts(events), n)
    ensures match events[n]
            case Decide(request, signature, source, roots, now) =>
              Canonical(EC.Ceremony(), request, signature, source, roots, now)
            case Acknowledge(request, signature, source, roots, now) =>
              Canonical(WA.Attestation(), request, signature, source, roots, now)
            case _ => true
  {
    assert ClaimsAt(start, Attempts(events), n + 1)
        == ClaimsAfter(ClaimsAt(start, Attempts(events), n), AttemptBy(events[n]));
    EC.CeremonyIsLawful();
    WA.AttestationIsLawful();
    match events[n]
    case Decide(request, signature, source, roots, now) =>
      CheckIsRebuild(EC.Ceremony(), request, signature, source, roots, now);
    case Acknowledge(request, signature, source, roots, now) =>
      CheckIsRebuild(WA.Attestation(), request, signature, source, roots, now);
    case _ =>
  }
}
