/** The authority verifier: a third signed single-use statement, without a rebuild. */
module AuthorityVerifier {
  import opened Wrappers
  import opened Records
  import opened Nonces
  import opened SignedStep

  const MAX_CAPABILITIES := 64

  /** A text of 1 to 256 characters; derived texts are always short enough. */
  predicate ShortText(v: Value) {
    match v
    case Str(s) => 0 < |s| <= 256
    case Stamp(_, _) | Text(_) | Sha(_) | DerivedId(_) => true
    case _ => false
  }

  predicate InStatement(k: Key) {
    || k == SCHEMA || k == TENANT_ID || CEREMONY_ID < k <= EXPIRES_AT || STATEMENT_ID <= k <= GRANT_KIND
  }

  predicate IsStatementText(k: Key) {
    || k == TENANT_ID || k == NONCE || k == KEY_ID || k == ISSUED_AT || k == EXPIRES_AT
    || STATEMENT_ID <= k <= POLICY_ID
  }

  predicate CapabilitiesOk(v: Value) {
    && v.List? && |v.items| <= MAX_CAPABILITIES
    && (forall i | 0 <= i < |v.items| :: ShortText(v.items[i]))
    && (forall i, j | 0 <= i < j < |v.items| :: v.items[i] != v.items[j])
  }

  predicate IsBound(k: Key) { k == SUBJECT_ID || k == TENANT_ID || k == DOMAIN || k == POLICY_ID }

  /** What is checked before the nonce is claimed. */
  predicate Accepted(statement: Value, signature: Signature, roots: TrustRoots, now: Value, expected: Value) {
    var entry := Available(roots, Get(statement, KEY_ID), Get(statement, KEY_VERSION), now);
    var issued, expires := Get(statement, ISSUED_AT), Get(statement, EXPIRES_AT);
    && statement.Dict? && (forall k: Key :: k in statement.fields <==> InStatement(k))
    && Get(statement, SCHEMA) == Text(AuthoritySchema) && Get(statement, GRANT_KIND) == Text(CapabilityGrant)
    && (forall k: Key | IsStatementText(k) :: ShortText(Get(statement, k)))
    && Get(statement, KEY_VERSION).Int? && Get(statement, KEY_VERSION).n >= 1
    && CapabilitiesOk(Get(statement, CAPABILITIES))
    && UtcTime(now) && UtcTime(issued) && UtcTime(expires)
    && issued.us <= now.us < expires.us && issued.us < expires.us
    && (forall k: Key | IsBound(k) :: Get(expected, k) != EMPTY && Get(statement, k) == Get(expected, k))
    && entry.Some? && signature == Signed(entry.value.publicKey, statement)
  }

  function Spelled(v: Value): string { if v.Str? then v.s else "" }

  /** The five names joined by bars. */
  function NonceScope(statement: Value): Value {
    Str(Spelled(Get(statement, AUTHORITY_ID)) + "|" + Spelled(Get(statement, SUBJECT_ID)) + "|"
        + Spelled(Get(statement, TENANT_ID)) + "|" + Spelled(Get(statement, DOMAIN)) + "|"
        + Spelled(Get(statement, POLICY_ID)))
  }

  function ClaimFor(statement: Value, now: Value): Attempt {
    Attempt(NonceScope(statement), Get(statement, NONCE), Get(statement, EXPIRES_AT), now)
  }

  /** `verify_authority_statement`: whether the statement is verified. */
  method VerifyAuthority(
    statement: Value, signature: Signature, roots: TrustRoots, registry: NonceRegistry, now: Value, expected: Value)
    returns (verified: bool)
    modifies registry
    ensures var passed, claim := Accepted(statement, signature, roots, now, expected), ClaimFor(statement, now);
            && registry.claims == (if passed then ClaimsAfter(old(registry.claims), claim) else old(registry.claims))
            && verified == (passed && OutcomeOf(old(registry.claims), claim) == Granted)
  {
    verified := Accepted(statement, signature, roots, now, expected);
    if verified {
      var outcome := registry.Claim(NonceScope(statement), Get(statement, NONCE), Get(statement, EXPIRES_AT), now);
      verified := outcome == Granted;
    }
  }
}
