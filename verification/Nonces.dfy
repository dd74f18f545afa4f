/** The persistent nonce registry: a table of unexpired claims, and what it guarantees
    over any sequence of claims although it forgets expired ones. */
module Nonces {
  import opened Records

  /** What a call of `claim` reports; malformed arguments raise. */
  datatype Outcome = Raised | Refused | Granted

  /** The table: the expiry of each claimed (scope, nonce), in microseconds. */
  type Claims = map<(Value, Value), int>

  datatype Attempt = Attempt(scope: Value, nonce: Value, expiresAt: Value, now: Value)

  predicate UsableNonce(nonce: Value) { nonce.Str? && 0 < |nonce.s| <= 256 }

  /** A free text is measured; the digests that callers derive are always short enough. */
  predicate UsableScope(scope: Value) { scope.Str? ==> 0 < |scope.s| <= 256 }

  /** The registry reads only the strict timestamp form. */
  predicate StrictTime(v: Value) { v.Stamp? && (v.form.Whole? || v.form.Fraction?) }

  function Live(claims: Claims, now: int): Claims {
    map entry | entry in claims && now < claims[entry] :: claims[entry]
  }

  function OutcomeOf(claims: Claims, a: Attempt): Outcome {
    if !UsableScope(a.scope) || !UsableNonce(a.nonce) || !StrictTime(a.now) || !StrictTime(a.expiresAt) then Raised
    else if a.expiresAt.us <= a.now.us then Refused
    else if (a.scope, a.nonce) in Live(claims, a.now.us) then Refused
    else Granted
  }

  /** Only a granted claim changes the table: it drops what has expired and adds itself;
      a refused one is rolled back. */
  function ClaimsAfter(claims: Claims, a: Attempt): Claims {
    if OutcomeOf(claims, a) == Granted then Live(claims, a.now.us)[(a.scope, a.nonce) := a.expiresAt.us] else claims
  }

  class NonceRegistry {
    var claims: Claims

    constructor ()
      ensures claims == map[]
    {
      claims := map[];
    }

    /** `claim`. */
    method Claim(scope: Value, nonce: Value, expiresAt: Value, now: Value) returns (outcome: Outcome)
      modifies this
      ensures outcome == OutcomeOf(old(claims), Attempt(scope, nonce, expiresAt, now))
      ensures claims == ClaimsAfter(old(claims), Attempt(scope, nonce, expiresAt, now))
    {
      if !UsableScope(scope) || !UsableNonce(nonce) || !StrictTime(now) || !StrictTime(expiresAt) {
        return Raised;
      }
      if expiresAt.us <= now.us {
        return Refused;
      }
      var saved := claims;
      claims := Live(claims, now.us);
      if (scope, nonce) in claims {
        claims := saved;
        return Refused;
      }
      claims := claims[(scope, nonce) := expiresAt.us];
      return Granted;
    }
  }

  // ------------------------------------------------------------------- whole runs

  function ClaimsAt(start: Claims, attempts: seq<Attempt>, n: nat): Claims
    requires n <= |attempts|
  {
    if n == 0 then start else ClaimsAfter(ClaimsAt(start, attempts, n - 1), attempts[n - 1])
  }

  predicate GrantedAt(start: Claims, attempts: seq<Attempt>, n: nat)
    requires n < |attempts|
  {
    OutcomeOf(ClaimsAt(start, attempts, n), attempts[n]) == Granted
  }

  /** The clock never runs backwards from one readable time to the next. */
  ghost predicate Ordered(attempts: seq<Attempt>) {
    forall i, j | 0 <= i < j < |attempts| && attempts[i].now.Stamp? && attempts[j].now.Stamp? ::
      attempts[i].now.us <= attempts[j].now.us
  }

  /** An entry survives every later claim made before it expires. */
  lemma {:induction false} EntryStays(start: Claims, attempts: seq<Attempt>, i: nat, j: nat, entry: (Value, Value), until: int)
    requires i <= j <= |attempts|
    requires entry in ClaimsAt(start, attempts, i) && ClaimsAt(start, attempts, i)[entry] == until
    requires forall k | i <= k < j && attempts[k].now.Stamp? :: attempts[k].now.us < until
    ensures entry in ClaimsAt(start, attempts, j) && ClaimsAt(start, attempts, j)[entry] == until
    decreases j - i
  {
    if i < j { EntryStays(start, attempts, i, j - 1, entry, until); }
  }

  /** Two claims of the same scope and nonce with the same expiry are never both granted,
      whatever else is claimed in between and however much the registry forgets. */
  lemma {:induction false} GrantedOnce(start: Claims, attempts: seq<Attempt>, i: nat, j: nat)
    requires Ordered(attempts) && i < j < |attempts|
    requires attempts[i].scope == attempts[j].scope && attempts[i].nonce == attempts[j].nonce
    requires attempts[i].expiresAt == attempts[j].expiresAt
    requires GrantedAt(start, attempts, i)
    ensures !GrantedAt(start, attempts, j)
  {
    var entry, until, last := (attempts[i].scope, attempts[i].nonce), attempts[i].expiresAt.us, attempts[j].now;
    if StrictTime(last) && last.us < until {
      assert ClaimsAt(start, attempts, i + 1) == ClaimsAfter(ClaimsAt(start, attempts, i), attempts[i]);
      forall k | i + 1 <= k < j && attempts[k].now.Stamp?
        ensures attempts[k].now.us < until
      {
        assert attempts[k].now.us <= last.us;
      }
      EntryStays(start, attempts, i + 1, j, entry, until);
      assert entry in Live(ClaimsAt(start, attempts, j), last.us);
    }
  }
}
