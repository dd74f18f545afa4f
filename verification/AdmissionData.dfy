/** What the multi-company admission gate reads, and how it reads one field at a time. */
module AdmissionData {
  import opened Wrappers
  import opened Texts

  datatype Quota = CapacityUnits | CallsPerCycle | TokensPerCycle | SupportTickets

  /** The order in which the gate visits the quotas. */
  function QuotaAt(k: nat): Quota
    requires k < 4
  {
    if k == 0 then CapacityUnits else if k == 1 then CallsPerCycle else if k == 2 then TokensPerCycle else SupportTickets
  }

  function IndexOf(q: Quota): (k: nat)
    ensures k < 4 && QuotaAt(k) == q
  {
    match q case CapacityUnits => 0 case CallsPerCycle => 1 case TokensPerCycle => 2 case SupportTickets => 3
  }

  /** A dictionary with one entry for each quota. */
  datatype PerQuota<T> = PerQuota(capacity: T, calls: T, tokens: T, tickets: T) {
    function At(q: Quota): T {
      match q case CapacityUnits => capacity case CallsPerCycle => calls case TokensPerCycle => tokens
      case SupportTickets => tickets
    }

    function With(q: Quota, value: T): (r: PerQuota<T>)
      ensures r.At(q) == value
      ensures forall other :: other != q ==> r.At(other) == At(other)
    {
      match q case CapacityUnits => this.(capacity := value) case CallsPerCycle => this.(calls := value)
      case TokensPerCycle => this.(tokens := value) case SupportTickets => this.(tickets := value)
    }
  }

  function Everywhere<T>(value: T): PerQuota<T> {
    PerQuota(value, value, value, value)
  }

  lemma {:induction false} SamePerQuota<T>(a: PerQuota<T>, b: PerQuota<T>)
    requires forall q :: a.At(q) == b.At(q)
    ensures a == b
  {
    assert a.At(CapacityUnits) == b.At(CapacityUnits) && a.At(CallsPerCycle) == b.At(CallsPerCycle);
    assert a.At(TokensPerCycle) == b.At(TokensPerCycle) && a.At(SupportTickets) == b.At(SupportTickets);
  }

  /** A field of a dictionary as far as its readers can tell values apart.  A text is
      kept only with the finite number that it spells, if any. */
  datatype Raw = Unusable | Boolean(flag: bool) | Integer(n: int) | Decimal(r: real) | Numeral(number: Option<real>)

  /** `_positive_int`. */
  function PositiveInt(raw: Raw): Option<int> {
    if raw.Integer? && raw.n >= 1 then Some(raw.n) else None
  }

  /** `_number`: booleans are refused, numeric texts are read. */
  function Number(raw: Raw): Option<real> {
    match raw
    case Integer(n) => Some(n as real)
    case Decimal(r) => Some(r)
    case Numeral(number) => number
    case _ => None
  }

  /** `_pct`. */
  function Percent(raw: Raw): Option<real> {
    var number := Number(raw);
    if number.Some? && 0.0 <= number.value <= 100.0 then number else None
  }

  /** `round(x, 2)`: to two decimals, ties to the even neighbour. */
  function Round2(x: real): real {
    var low := (x * 100.0).Floor;
    var rest := x * 100.0 - low as real;
    (if rest < 0.5 || (rest == 0.5 && low % 2 == 0) then low else low + 1) as real / 100.0
  }

  lemma {:induction false} RoundIsClose(x: real)
    ensures x - 0.005 <= Round2(x) <= x + 0.005
  {
  }

  lemma {:induction false} RoundIsMonotone(x: real, y: real)
    requires x <= y
    ensures Round2(x) <= Round2(y)
  {
    var low, high := (x * 100.0).Floor, (y * 100.0).Floor;
    assert x * 100.0 <= y * 100.0;
    if low < high { assert low + 1 <= high; }
  }

  lemma {:induction false} RoundTwice(x: real)
    ensures Round2(Round2(x)) == Round2(x)
  {
    var low := (x * 100.0).Floor;
    var rest := x * 100.0 - low as real;
    var n := if rest < 0.5 || (rest == 0.5 && low % 2 == 0) then low else low + 1;
    assert Round2(x) == n as real / 100.0;
    assert n as real / 100.0 * 100.0 == n as real;
    assert (n as real).Floor == n;
  }

  /** `part / whole * 100`. */
  function Ratio(part: int, whole: int): real
    requires whole > 0
  {
    part as real / whole as real * 100.0
  }

  lemma {:induction false} RatioIsMonotone(part: int, larger: int, whole: int)
    requires part <= larger && whole > 0
    ensures Ratio(part, whole) <= Ratio(larger, whole)
  {
    var a, b, w := part as real, larger as real, whole as real;
    assert b / w - a / w == (b - a) / w;
    assert (b - a) / w >= 0.0;
  }

  /** The reserve left on a limit, as reported. */
  function Reserve(limit: int, used: int): real
    requires limit > 0
  {
    var left := Ratio(limit - used, limit);
    Round2(if left > 0.0 then left else 0.0)
  }

  function Share(limit: int, requested: int): real
    requires limit > 0
  {
    Round2(Ratio(requested, limit))
  }

  lemma {:induction false} ReserveFallsWithUse(limit: int, used: int, more: int)
    requires limit > 0 && used <= more
    ensures Reserve(limit, more) <= Reserve(limit, used)
  {
    RatioIsMonotone(limit - more, limit - used, limit);
    var a, b := Ratio(limit - more, limit), Ratio(limit - used, limit);
    RoundIsMonotone(if a > 0.0 then a else 0.0, if b > 0.0 then b else 0.0);
  }

  lemma {:induction false} ShareGrowsWithRequest(limit: int, requested: int, more: int)
    requires limit > 0 && requested <= more
    ensures Share(limit, requested) <= Share(limit, more)
  {
    RatioIsMonotone(requested, more, limit);
    RoundIsMonotone(Ratio(requested, limit), Ratio(more, limit));
  }

  /** What the rounded figures guarantee about the exact ones. */
  lemma {:induction false} ExactFigures(limit: int, used: int, requested: int, floor: real, ceiling: real)
    requires limit > 0 && used <= limit
    requires Reserve(limit, used) >= floor && Share(limit, requested) <= ceiling
    ensures Ratio(limit - used, limit) >= floor - 0.005
    ensures Ratio(requested, limit) <= ceiling + 0.005
  {
    RatioIsMonotone(0, limit - used, limit);
    assert Ratio(0, limit) == 0.0;
    RoundIsClose(Ratio(limit - used, limit));
    RoundIsClose(Ratio(requested, limit));
  }

  datatype Scope = Scope(owner: string, tenant: string, workspace: string)

  /** `_scope`. */
  function Trim(scope: Scope): Scope {
    Scope(Text(scope.owner, 120), Text(scope.tenant, 120), Text(scope.workspace, 120))
  }

  predicate Complete(scope: Scope) {
    scope.owner != "" && scope.tenant != "" && scope.workspace != ""
  }

  predicate TenantIdStart(c: char) { 'a' <= c <= 'z' || '0' <= c <= '9' }

  predicate TenantIdChar(c: char) { TenantIdStart(c) || c == '.' || c == '_' || c == '-' }

  /** The tenant-id pattern: 8 to 80 characters. */
  predicate IsTenantId(s: string) {
    8 <= |s| <= 80 && TenantIdStart(s[0]) && forall i | 0 <= i < |s| :: TenantIdChar(s[i])
  }

  function TenantId(raw: string): string { Lower(Text(raw, 80)) }

  function Customer(raw: string): string { Text(raw, 120) }

  function Package(raw: string): string { Upper(Text(raw, 40)) }

  /** `_refs`: of the first 80 texts, the distinct non-empty ones in order. */
  function Refs(raw: seq<string>): (refs: seq<string>)
    ensures forall i, j | 0 <= i < j < |refs| :: refs[i] != refs[j]
  {
    RefsOf(if |raw| <= 80 then raw else raw[..80])
  }

  function RefsOf(raw: seq<string>): (refs: seq<string>)
    ensures forall i, j | 0 <= i < j < |refs| :: refs[i] != refs[j]
  {
    if raw == [] then []
    else
      var out, item := RefsOf(raw[..|raw| - 1]), Text(raw[|raw| - 1], 320);
      if item != "" && item !in out then out + [item] else out
  }

  // ------------------------------------------- normal forms that survive storage

  lemma {:induction false} TenantIdsAreSpaced(id: string)
    requires IsTenantId(id)
    ensures Spaced(id) && NUL !in id
  {
    forall i | 0 <= i < |id|
      ensures !IsSpace(id[i]) && id[i] != NUL
    {
      assert TenantIdChar(id[i]);
    }
  }

  lemma {:induction false} TenantIdsAreLower(id: string)
    requires IsTenantId(id)
    ensures Lower(id) == id
  {
    forall i | 0 <= i < |id|
      ensures Lower(id)[i] == id[i]
    {
      assert TenantIdChar(id[i]);
    }
  }

  lemma {:induction false} StoredTenantId(id: string)
    requires IsTenantId(id)
    ensures TenantId(id) == id
  {
    TenantIdsAreSpaced(id);
    SpacedIsNormal(id);
    TenantIdsAreLower(id);
  }

  lemma {:induction false} StoredCustomer(raw: string)
    requires Customer(raw) != ""
    ensures Customer(Customer(raw)) != ""
  {
    TextKeepsFirst(raw, 120);
    NonBlank(Customer(raw), 120);
  }

  lemma {:induction false} StoredPackage(raw: string)
    requires Package(raw) != ""
    ensures Package(Package(raw)) != "" && Text(Package(raw), 40) != ""
  {
    UpperTextAgain(raw, 40, 40);
  }

  /** A customer id whose cut at 120 characters does not fall after a space. */
  predicate StableCustomer(raw: string) {
    Customer(Customer(raw)) == Customer(raw)
  }
}
