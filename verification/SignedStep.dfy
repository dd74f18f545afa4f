/** The signed single-use step that the ceremonies share.  A request is built from a source
    document and from terms that its author chooses, signed outside, and verified by
    rebuilding it; what differs between ceremonies is a `Protocol`. */
module SignedStep {
  import opened Wrappers
  import opened Records
  import opened Nonces

  // ------------------------------------------------------------------ trust roots

  datatype RootStatus = Active | Retired | Revoked

  datatype RootEntry = RootEntry(publicKey: nat, status: RootStatus, notBefore: int, notAfter: int)

  datatype TrustRoots = TrustRoots(entries: map<(string, int), RootEntry>, revoked: set<string>)

  /** `verify_key_available`: the entry, if it is known, not revoked and active. */
  function Available(roots: TrustRoots, keyId: Value, version: Value, now: Value): Option<RootEntry> {
    if !keyId.Str? || !version.Int? || !now.Stamp? || (keyId.s, version.n) !in roots.entries then None
    else
      var entry := roots.entries[(keyId.s, version.n)];
      if entry.status != Active || keyId.s in roots.revoked then None
      else if entry.notBefore <= now.us <= entry.notAfter then Some(entry)
      else None
  }

  function Fingerprint(entry: RootEntry): Value { Sha(PublicKey(entry.publicKey)) }

  /** A signature is valid for one key and one message, or for none. */
  datatype Signature = Malformed | Signed(key: nat, message: Value)

  // ------------------------------------------------------------ what is asked for

  /** The parts of a request that its author chooses; `decision` is `Null` where the
      request carries none. */
  datatype Terms = Terms(
    ceremonyId: Value, nonce: Value, keyId: Value, keyVersion: Value, decision: Value, issuedAt: Value, expiresAt: Value)

  /** What one ceremony fixes: the longest life of a request in microseconds, whether it
      carries a decision, which sources are usable, which requests have exactly the
      required fields with the right constants, the body, and the scope of the nonce. */
  datatype Protocol = Protocol(
    maxWindow: int, decides: bool, sourceOk: Value -> bool, shapeOk: Value -> bool, constantsOk: Value -> bool,
    fingerprintKey: Key, body: (Value, Terms, Value) -> Value, scope: Value -> Value)

  predicate IdStart(c: char) { 'A' <= c <= 'Z' || 'a' <= c <= 'z' || '0' <= c <= '9' }

  predicate IdChar(c: char) { IdStart(c) || c == '.' || c == '_' || c == ':' || c == '-' }

  predicate IsToken(v: Value, least: nat, most: nat)
    requires least > 0
  {
    v.Str? && least <= |v.s| <= most && IdStart(v.s[0]) && forall i | 0 <= i < |v.s| :: IdChar(v.s[i])
  }

  predicate IdentityOk(p: Protocol, t: Terms) {
    && IsToken(t.ceremonyId, 8, 160) && IsToken(t.nonce, 16, 256)
    && t.keyId.Str? && 0 < |t.keyId.s| <= 128
    && t.keyVersion.Int? && t.keyVersion.n >= 1
    && (p.decides ==> IsDecision(t.decision))
  }

  predicate UtcTime(v: Value) { v.Stamp? && !v.form.Offset? }

  predicate WindowOk(p: Protocol, t: Terms, now: Value) {
    && UtcTime(t.issuedAt) && UtcTime(t.expiresAt) && UtcTime(now)
    && 0 < t.expiresAt.us - t.issuedAt.us <= p.maxWindow
    && t.issuedAt.us <= now.us < t.expiresAt.us
  }

  /** The builder: the request body, or nothing when any blocker is found. */
  function Build(p: Protocol, source: Value, roots: TrustRoots, now: Value, t: Terms): Option<Value> {
    var entry := Available(roots, t.keyId, t.keyVersion, now);
    if p.sourceOk(source) && IdentityOk(p, t) && WindowOk(p, t, now) && entry.Some? then
      Some(p.body(source, t, Fingerprint(entry.value)))
    else None
  }

  // ----------------------------------------------------------------- verification

  datatype Refusal =
    | ShapeMismatch | FieldsInvalid | RebuildBlocked | RebuildMismatch | KeyUnavailable | FingerprintMismatch
    | SignatureInvalid | NonceFailure | NonceReplayed

  function TermsIn(p: Protocol, request: Value): Terms {
    Terms(Get(request, CEREMONY_ID), Get(request, NONCE), Get(request, KEY_ID), Get(request, KEY_VERSION),
          if p.decides then Get(request, DECISION) else Null, Get(request, ISSUED_AT), Get(request, EXPIRES_AT))
  }

  predicate FieldsOk(p: Protocol, request: Value, now: Value) {
    p.constantsOk(request) && IdentityOk(p, TermsIn(p, request)) && WindowOk(p, TermsIn(p, request), now)
  }

  /** Everything that verification checks before it claims the nonce, in its order. */
  function Check(
    p: Protocol, request: Value, signature: Signature, source: Value, roots: TrustRoots, now: Value)
    : Result<RootEntry, Refusal>
  {
    var t := TermsIn(p, request);
    if !p.shapeOk(request) then Failure(ShapeMismatch)
    else if !FieldsOk(p, request, now) then Failure(FieldsInvalid)
    else
      var rebuilt := Build(p, source, roots, now, t);
      if rebuilt.None? then Failure(RebuildBlocked)
      else if rebuilt.value != request then Failure(RebuildMismatch)
      else
        var entry := Available(roots, t.keyId, t.keyVersion, now);
        if entry.None? then Failure(KeyUnavailable)
        else if Get(request, p.fingerprintKey) != Fingerprint(entry.value) then Failure(FingerprintMismatch)
        else if signature != Signed(entry.value.publicKey, request) then Failure(SignatureInvalid)
        else Success(entry.value)
  }

  /** The claim that a request makes once it is accepted. */
  function ClaimOf(p: Protocol, request: Value, now: Value): Attempt {
    Attempt(p.scope(request), Get(request, NONCE), Get(request, EXPIRES_AT), now)
  }

  /** The verifier: on success the request is spent.  A nonce is consumed only by a request
      that has passed the rebuild and the signature check. */
  method Verify(
    p: Protocol, request: Value, signature: Signature, source: Value, roots: TrustRoots, registry: NonceRegistry, now: Value)
    returns (result: Result<RootEntry, Refusal>)
    modifies registry
    ensures var checked := Check(p, request, signature, source, roots, now);
            var claim := ClaimOf(p, request, now);
            && registry.claims == (if checked.Success? then ClaimsAfter(old(registry.claims), claim)
                                   else old(registry.claims))
            && result == (if checked.Failure? then checked
                          else match OutcomeOf(old(registry.claims), claim)
                               case Granted => checked
                               case Refused => Failure(NonceReplayed)
                               case Raised => Failure(NonceFailure))
  {
    result := Check(p, request, signature, source, roots, now);
    if result.Failure? {
      return;
    }
    var outcome := registry.Claim(p.scope(request), Get(request, NONCE), Get(request, EXPIRES_AT), now);
    if outcome == Raised {
      result := Failure(NonceFailure);
    } else if outcome == Refused {
      result := Failure(NonceReplayed);
    }
  }

  // ------------------------------------------------------- what verification means

  /** A protocol whose bodies carry their own terms, key and constants. */
  ghost predicate Lawful(p: Protocol) {
    forall source: Value, t: Terms, fingerprint: Value ::
      (p.decides || t.decision == Null) ==> Faithful(p, p.body(source, t, fingerprint), t, fingerprint)
  }

  predicate Faithful(p: Protocol, body: Value, t: Terms, fingerprint: Value) {
    p.shapeOk(body) && p.constantsOk(body) && TermsIn(p, body) == t && Get(body, p.fingerprintKey) == fingerprint
  }

  /** The request that its own terms rebuild, signed with the key that it names. */
  predicate Canonical(p: Protocol, request: Value, signature: Signature, source: Value, roots: TrustRoots, now: Value) {
    var t := TermsIn(p, request);
    var entry := Available(roots, t.keyId, t.keyVersion, now);
    && Build(p, source, roots, now, t) == Some(request)
    && entry.Some? && signature == Signed(entry.value.publicKey, request)
  }

  /** All the separate checks of verification come down to one: the request equals the
      canonical rebuild of its own terms, and the named key signed exactly that. */
  lemma {:induction false} CheckIsRebuild(
    p: Protocol, request: Value, signature: Signature, source: Value, roots: TrustRoots, now: Value)
    requires Lawful(p)
    ensures Check(p, request, signature, source, roots, now).Success? <==>
            Canonical(p, request, signature, source, roots, now)
  {
    var t := TermsIn(p, request);
    var entry := Available(roots, t.keyId, t.keyVersion, now);
    if Build(p, source, roots, now, t) == Some(request) {
      assert request == p.body(source, t, Fingerprint(entry.value));
      assert Faithful(p, request, t, Fingerprint(entry.value));
    }
  }

  /** What the builder issues, the verifier accepts at any moment of the window at which
      the key is still available, whenever the source is still the same. */
  lemma {:induction false} IssuedIsAccepted(
    p: Protocol, source: Value, roots: TrustRoots, issued: Value, now: Value, t: Terms, entry: RootEntry)
    requires Lawful(p) && (p.decides || t.decision == Null)
    requires Build(p, source, roots, issued, t).Some? && WindowOk(p, t, now)
    requires Available(roots, t.keyId, t.keyVersion, now) == Some(entry)
    ensures var request := Build(p, source, roots, issued, t).value;
            && TermsIn(p, request) == t
            && Check(p, request, Signed(entry.publicKey, request), source, roots, now) == Success(entry)
  {
    assert Available(roots, t.keyId, t.keyVersion, issued) == Some(entry);
    var request := p.body(source, t, Fingerprint(entry));
    assert Faithful(p, request, t, Fingerprint(entry));
    CheckIsRebuild(p, request, Signed(entry.publicKey, request), source, roots, now);
  }
}
