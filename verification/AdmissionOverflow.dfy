/** When the gate loses control of its own portfolio: exactly which policies admit a run past
    the 500th tenant and any quota limit, and exactly which customers can be admitted twice. */
module AdmissionOverflow {
  import opened Wrappers
  import opened Texts
  import opened AdmissionData
  import opened Portfolio
  import opened Admission
  import opened AdmissionLaws
  import opened AdmissionRuns
  import opened AdmissionLimits

  // ------------------------------------------------------------ a minimal tenant

  /** Everything about a world that a request cannot repair. */
  ghost predicate UsableWorld(w: World) {
    && Complete(Trim(w.trusted)) && GoodPolicy(w.policy, w.trusted)
    && w.header.schemaKnown && w.header.verified && Trim(w.header.scope) == Trim(w.trusted)
    && |Refs(w.header.refs)| >= 4
  }

  function Minimal(w: World, customer: string, id: string): Request {
    Request(w.trusted, customer, id, "p", Everywhere(Integer(1)), Integer(1), Integer(1), Integer(0), ["a", "b", "c"])
  }

  function Proposed(customer: string): Upstream { Upstream([], [], customer, "p") }

  const IDLE: PerQuota<Raw> := Everywhere(Integer(0))

  /** The admission of a tenant that asks for one unit of everything. */
  function MinimalAdmission(w: World, customer: string, id: string): Event {
    Admit(Proposed(customer), Minimal(w, customer, id), IDLE)
  }

  lemma {:induction false} OneLetter(c: char, limit: nat)
    requires 'a' <= c <= 'z' && limit >= 1
    ensures Text([c], limit) == [c]
  {
    assert Spaced([c]);
    SpacedIsNormal([c]);
    assert DropNul([c]) == [c];
  }

  lemma {:induction false} PackageIsKept()
    ensures Package("p") == "P"
  {
    OneLetter('p', 40);
  }

  /** One more distinct letter is one more reference. */
  lemma {:induction false} RefsSnoc(raw: seq<string>, c: char)
    requires 'a' <= c <= 'z' && RefsOf(raw) == raw && [c] !in raw
    ensures RefsOf(raw + [[c]]) == raw + [[c]]
  {
    OneLetter(c, 320);
    assert (raw + [[c]])[..|raw|] == raw;
  }

  lemma {:induction false} ThreeRefs()
    ensures Refs(["a", "b", "c"]) == RefsOf(["a", "b", "c"]) == ["a", "b", "c"]
  {
    RefsSnoc([], 'a');
    RefsSnoc([] + ["a"], 'b');
    RefsSnoc([] + ["a"] + ["b"], 'c');
    assert [] + ["a"] + ["b"] + ["c"] == ["a", "b", "c"];
  }

  lemma {:induction false} MinimalAsk(w: World, customer: string, id: string)
    requires IsTenantId(id)
    ensures AskOf(Minimal(w, customer, id))
         == Ask(Customer(customer), id, "P", Everywhere(Some(1)), Some(1), Some(1), Some(0.0))
  {
    StoredTenantId(id);
    PackageIsKept();
  }

  lemma {:induction false} GoodAsk(request: Request, trusted: Scope, upstream: Upstream, ask: Ask)
    requires ask == AskOf(request) && request.scope == trusted && ask.customer == Customer(upstream.customer) != ""
    requires IsTenantId(ask.tenantId) && ask.package == Package(upstream.package) != ""
    requires ask.quotas == Everywhere(Some(1)) && ask.channels.Some? && ask.integrations.Some? && ask.peak.Some?
    requires |Refs(request.refs)| >= 3
    ensures GoodRequest(request, trusted, upstream)
  {
    assert forall q :: ask.quotas.At(q) == Some(1);
  }

  lemma {:induction false} MinimalIsGood(w: World, customer: string, id: string)
    requires IsTenantId(id) && Customer(customer) != ""
    ensures GoodRequest(Minimal(w, customer, id), w.trusted, Proposed(customer))
  {
    MinimalAsk(w, customer, id);
    PackageIsKept();
    ThreeRefs();
    GoodAsk(Minimal(w, customer, id), w.trusted, Proposed(customer), AskOf(Minimal(w, customer, id)));
  }

  // --------------------------------------------------------- when it is admitted

  lemma {:induction false} GoodTerms(policy: Policy, trusted: Scope)
    requires GoodPolicy(policy, trusted)
    ensures UsableTerms(TermsOf(policy)) && TermsOf(policy).maxUtilization.value > 0.0
  {
    LimitsArePositive(policy);
  }

  lemma {:induction false} GoodSizes(policy: Policy)
    requires TermsOf(policy).maxChannels.Some? && TermsOf(policy).maxIntegrations.Some?
    ensures TermsOf(policy).maxChannels.value >= 1 && TermsOf(policy).maxIntegrations.value >= 1
  {
  }

  lemma {:induction false} PolicyNumbers(w: World)
    requires UsableWorld(w)
    ensures UsableTerms(TermsOf(w.policy)) && TermsOf(w.policy).maxUtilization.value > 0.0
    ensures TermsOf(w.policy).maxChannels.value >= 1 && TermsOf(w.policy).maxIntegrations.value >= 1
  {
    GoodTerms(w.policy, w.trusted);
    GoodSizes(w.policy);
  }

  /** A minimal request fits exactly when its names are new and there is room. */
  lemma {:induction false} MinimalFits(terms: Terms, ask: Ask, entries: seq<Option<Seat>>)
    requires UsableTerms(terms) && Clean(entries)
    requires terms.maxChannels.value >= 1 && terms.maxIntegrations.value >= 1 && terms.maxUtilization.value > 0.0
    requires ask.quotas == Everywhere(Some(1)) && ask.channels == Some(1) && ask.integrations == Some(1)
    requires ask.peak == Some(0.0) && Quiet(entries, terms.maxUtilization) && |entries| + 1 <= terms.maxActive.value
    requires forall q :: QuotaFits(terms.limits.At(q).value, Total(entries, q), 1, terms.minReserve.value, terms.maxShare.value)
    ensures AllSome(ask.quotas)
    ensures Fits(terms, ask, entries) <==>
            forall i | 0 <= i < |entries| :: entries[i].value.id != ask.tenantId && entries[i].value.customer != ask.customer
  {
    assert forall q :: ask.quotas.At(q) == Some(1);
  }

  lemma {:induction false} ZeroIsPercent()
    ensures Percentages(IDLE)
  {
    forall q ensures Percent(IDLE.At(q)).Some? { assert IDLE.At(q) == Integer(0); }
  }

  lemma {:induction false} ReadEntries(w: World, members: seq<RawTenant>, upstream: Upstream, request: Request)
    requires |members| <= READ_LIMIT
    ensures Entries(InputsAt(w, members, upstream, request).portfolio) == SeatsOf(members)
  {
  }

  /** In a usable world only the entries and the request can be at fault. */
  lemma {:induction false} WellFormedIff(w: World, members: seq<RawTenant>, upstream: Upstream, request: Request)
    requires UsableWorld(w) && |members| <= READ_LIMIT && upstream.valueFaults == [] && upstream.conversionFaults == []
    ensures WellFormed(InputsAt(w, members, upstream, request)) <==>
            Clean(SeatsOf(members)) && GoodRequest(request, w.trusted, upstream)
  {
    ReadEntries(w, members, upstream, request);
  }

  /** Seats beside which there is room for a minimal tenant. */
  ghost predicate Spacious(w: World, members: seq<RawTenant>) {
    && |members| <= READ_LIMIT && Clean(SeatsOf(members)) && Quiet(SeatsOf(members), TermsOf(w.policy).maxUtilization)
    && TermsOf(w.policy).maxActive.Some? && |members| + 1 <= TermsOf(w.policy).maxActive.value
    && UsableTerms(TermsOf(w.policy))
    && forall q :: QuotaFits(TermsOf(w.policy).limits.At(q).value, Total(SeatsOf(members), q), 1,
                             TermsOf(w.policy).minReserve.value, TermsOf(w.policy).maxShare.value)
  }

  /** Beside them it is admitted if and only if its names are new. */
  lemma {:induction false} MinimalEnabledIff(w: World, members: seq<RawTenant>, customer: string, id: string)
    requires UsableWorld(w) && Spacious(w, members) && IsTenantId(id) && Customer(customer) != ""
    ensures var entries := SeatsOf(members);
            Enabled(w, members, MinimalAdmission(w, customer, id)) <==>
            forall i | 0 <= i < |entries| :: entries[i].value.id != id && entries[i].value.customer != Customer(customer)
  {
    var request, upstream := Minimal(w, customer, id), Proposed(customer);
    ZeroIsPercent();
    MinimalIsGood(w, customer, id);
    MinimalAsk(w, customer, id);
    WellFormedIff(w, members, upstream, request);
    ReadEntries(w, members, upstream, request);
    PolicyNumbers(w);
    MinimalFits(TermsOf(w.policy), AskOf(request), SeatsOf(members));
    ReviewableIff(InputsAt(w, members, upstream, request));
  }

  /** The tenant as it is stored and read back. */
  function MinimalTenant(customer: string, id: string): RawTenant {
    Tenant(id, Customer(customer), "P", Everywhere(Integer(1)), IDLE)
  }

  lemma {:induction false} MinimalApplied(w: World, members: seq<RawTenant>, customer: string, id: string)
    requires IsTenantId(id)
    ensures Applied(members, MinimalAdmission(w, customer, id)) == members + [MinimalTenant(customer, id)]
  {
    MinimalAsk(w, customer, id);
  }

  lemma {:induction false} PackageAgain()
    ensures Package("P") == "P"
  {
    assert Spaced("P");
    SpacedIsNormal("P");
    assert DropNul("P") == "P";
  }

  lemma {:induction false} MinimalSeat(customer: string, id: string)
    requires IsTenantId(id) && Customer(customer) != ""
    ensures SeatOf(MinimalTenant(customer, id))
         == Some(Seat(true, id, Customer(Customer(customer)), Everywhere(Some(1)), Everywhere(Some(0.0))))
  {
    StoredTenantId(id);
    StoredCustomer(customer);
    PackageAgain();
  }

  // ----------------------------------------------------------- one after another

  /** The first `n` items. */
  function Listed<T>(item: nat -> T, n: nat): (items: seq<T>)
    ensures |items| == n && forall k | 0 <= k < n :: items[k] == item(k)
  {
    if n == 0 then [] else Listed(item, n - 1) + [item(n - 1)]
  }

  lemma {:induction false} SeatsListed(item: nat -> RawTenant, seat: nat -> Option<Seat>, n: nat)
    requires forall k: nat | k < n :: SeatOf(item(k)) == seat(k)
    ensures SeatsOf(Listed(item, n)) == Listed(seat, n)
  {
    if n > 0 {
      SeatsListed(item, seat, n - 1);
      SeatsSnoc(Listed(item, n - 1), item(n - 1));
    }
  }

  lemma {:induction false} TotalListed(seat: nat -> Option<Seat>, n: nat, q: Quota)
    requires forall k: nat | k < n :: Amount(seat(k), q) == 1
    ensures Total(Listed(seat, n), q) == n
  {
    if n > 0 {
      TotalListed(seat, n - 1, q);
      TotalSnoc(Listed(seat, n - 1), seat(n - 1), q);
    }
  }

  /** The runs of any machine, and where they end. */
  ghost predicate Legal<S(!new), E(!new)>(enabled: (S, E) -> bool, apply: (S, E) -> S, start: S, events: seq<E>) {
    events == []
    || (Legal(enabled, apply, start, events[..|events| - 1])
        && enabled(Final(apply, start, events[..|events| - 1]), events[|events| - 1]))
  }

  function Final<S, E>(apply: (S, E) -> S, start: S, events: seq<E>): S {
    if events == [] then start else apply(Final(apply, start, events[..|events| - 1]), events[|events| - 1])
  }

  /** The k-th event is enabled in the k-th state and leads to the next. */
  ghost predicate Leads<S(!new), E(!new)>(
    enabled: (S, E) -> bool, apply: (S, E) -> S, state: nat -> S, event: nat -> E, k: nat)
  {
    enabled(state(k), event(k)) && apply(state(k), event(k)) == state(k + 1)
  }

  lemma {:induction false} ListedRun<S(!new), E(!new)>(
    enabled: (S, E) -> bool, apply: (S, E) -> S, state: nat -> S, event: nat -> E, n: nat)
    requires forall k: nat | k < n :: Leads(enabled, apply, state, event, k)
    ensures Legal(enabled, apply, state(0), Listed(event, n)) && Final(apply, state(0), Listed(event, n)) == state(n)
  {
    if n > 0 {
      ListedRun(enabled, apply, state, event, n - 1);
      assert Leads(enabled, apply, state, event, n - 1);
      assert Listed(event, n)[..n - 1] == Listed(event, n - 1);
      assert Listed(event, n)[n - 1] == event(n - 1);
    }
  }

  ghost function EnabledIn(w: World): (seq<RawTenant>, Event) -> bool { (members, event) => Enabled(w, members, event) }

  lemma {:induction false} SameEnd(events: seq<Event>)
    ensures After([], events) == Final(Applied, [], events)
  {
    if events != [] { SameEnd(events[..|events| - 1]); }
  }

  /** The runs of the gate are legal runs. */
  lemma {:induction false} LegalIsValid(w: World, enabled: (seq<RawTenant>, Event) -> bool, events: seq<Event>)
    requires enabled == EnabledIn(w) && Legal(enabled, Applied, [], events)
    ensures ValidRun(w, [], events)
  {
    if events != [] {
      LegalIsValid(w, enabled, events[..|events| - 1]);
      SameEnd(events[..|events| - 1]);
    }
  }

  // -------------------------------------------------------------- filling it up

  function DigitChar(d: nat): char
    requires d < 10
  {
    '0' + d as char
  }

  /** Five letters and the last three digits of a number. */
  function Name(n: nat): string {
    ['t', 'e', 'n', 'a', 'n', DigitChar(n / 100 % 10), DigitChar(n / 10 % 10), DigitChar(n % 10)]
  }

  lemma {:induction false} DigitsOf(n: nat)
    requires n < 1000
    ensures n == n / 100 % 10 * 100 + n / 10 % 10 * 10 + n % 10
  {
    assert n / 10 == n / 100 * 10 + n / 10 % 10;
    assert n / 100 % 10 == n / 100;
  }

  lemma {:induction false} SameDigit(c: nat, d: nat)
    requires c < 10 && d < 10 && DigitChar(c) == DigitChar(d)
    ensures c == d
  {
  }

  lemma {:induction false} NamesDiffer(m: nat, n: nat)
    requires m < 1000 && n < 1000 && m != n
    ensures Name(m) != Name(n)
  {
    if Name(m) == Name(n) {
      var a, b := Name(m), Name(n);
      assert a[5] == b[5] && a[6] == b[6] && a[7] == b[7];
      SameDigit(m / 100 % 10, n / 100 % 10);
      SameDigit(m / 10 % 10, n / 10 % 10);
      SameDigit(m % 10, n % 10);
      DigitsOf(m);
      DigitsOf(n);
    }
  }

  lemma {:induction false} NameIsId(n: nat)
    ensures IsTenantId(Name(n)) && Customer(Name(n)) == Name(n) != ""
  {
    var name := Name(n);
    assert IsTenantId(name);
    TenantIdsAreSpaced(name);
    SpacedIsNormal(name);
  }

  /** Names that 1000 tenants can be told apart by. */
  ghost predicate Naming(name: nat -> string) {
    && (forall k: nat | k < 1000 :: IsTenantId(name(k)) && Customer(name(k)) == name(k) != "")
    && (forall i: nat, j: nat | i < j < 1000 :: name(i) != name(j))
  }

  lemma {:induction false} NamesExist()
    ensures Naming(Name)
  {
    forall k: nat | k < 1000 ensures IsTenantId(Name(k)) && Customer(Name(k)) == Name(k) != "" { NameIsId(k); }
    forall i: nat, j: nat | i < j < 1000 ensures Name(i) != Name(j) { NamesDiffer(i, j); }
  }

  function Newcomer(name: nat -> string): nat -> RawTenant { (k: nat) => MinimalTenant(name(k), name(k)) }

  function NewcomerSeat(name: nat -> string): nat -> Option<Seat> {
    (k: nat) => Some(Seat(true, name(k), name(k), Everywhere(Some(1)), Everywhere(Some(0.0))))
  }

  lemma {:induction false} NewcomerIsSeated(name: nat -> string, n: nat)
    requires Naming(name) && n < 1000
    ensures SeatOf(Newcomer(name)(n)) == NewcomerSeat(name)(n)
  {
    MinimalSeat(name(n), name(n));
  }

  lemma {:induction false} SeatIsSound(name: nat -> string, n: nat)
    ensures var seat := NewcomerSeat(name)(n);
            Sound(seat.value) && (forall q :: Amount(seat, q) == 1) && forall q :: seat.value.utilization.At(q) == Some(0.0)
  {
    assert forall q :: Everywhere(Some(1)).At(q) == Some(1);
    assert forall q :: Everywhere(Some(0.0)).At(q) == Some(0.0);
  }

  /** Seats of pairwise different names that hold one unit of everything. */
  lemma {:induction false} ListedIsClean(seat: nat -> Option<Seat>, name: nat -> string, n: nat, cap: Option<real>)
    requires forall k: nat | k < n :: seat(k).Some? && Sound(seat(k).value)
    requires forall k: nat | k < n :: seat(k).value.id == name(k) && seat(k).value.customer == name(k)
    requires forall k: nat, q | k < n :: seat(k).value.utilization.At(q) == Some(0.0)
    requires forall i: nat, j: nat | i < j < n :: name(i) != name(j)
    requires cap.Some? ==> cap.value > 0.0
    ensures Clean(Listed(seat, n)) && Quiet(Listed(seat, n), cap)
  {
  }

  lemma {:induction false} CrowdIsSeated(name: nat -> string, n: nat)
    requires Naming(name) && n <= 1000
    ensures SeatsOf(Listed(Newcomer(name), n)) == Listed(NewcomerSeat(name), n)
  {
    forall k: nat | k < n ensures SeatOf(Newcomer(name)(k)) == NewcomerSeat(name)(k) { NewcomerIsSeated(name, k); }
    SeatsListed(Newcomer(name), NewcomerSeat(name), n);
  }

  lemma {:induction false} CrowdTotal(name: nat -> string, n: nat, q: Quota)
    ensures Total(Listed(NewcomerSeat(name), n), q) == n
  {
    forall k: nat | k < n ensures Amount(NewcomerSeat(name)(k), q) == 1 { SeatIsSound(name, k); }
    TotalListed(NewcomerSeat(name), n, q);
  }

  lemma {:induction false} CrowdIsClean(name: nat -> string, n: nat, cap: Option<real>)
    requires Naming(name) && n <= 1000 && (cap.Some? ==> cap.value > 0.0)
    ensures SeatsOf(Listed(Newcomer(name), n)) == Listed(NewcomerSeat(name), n)
    ensures Clean(Listed(NewcomerSeat(name), n)) && Quiet(Listed(NewcomerSeat(name), n), cap)
    ensures forall q :: Total(Listed(NewcomerSeat(name), n), q) == n
  {
    CrowdIsSeated(name, n);
    forall k: nat | k < n
      ensures Sound(NewcomerSeat(name)(k).value)
      ensures forall q :: NewcomerSeat(name)(k).value.utilization.At(q) == Some(0.0)
    {
      SeatIsSound(name, k);
    }
    ListedIsClean(NewcomerSeat(name), name, n, cap);
    forall q ensures Total(Listed(NewcomerSeat(name), n), q) == n { CrowdTotal(name, n, q); }
  }

  /** The policy would let a 501st minimal tenant stand beside 500 of them. */
  ghost predicate CanOverflow(w: World) {
    && UsableWorld(w) && UsableTerms(TermsOf(w.policy)) && TermsOf(w.policy).maxActive.value > READ_LIMIT
    && forall q :: QuotaFits(TermsOf(w.policy).limits.At(q).value, READ_LIMIT, 1,
                             TermsOf(w.policy).minReserve.value, TermsOf(w.policy).maxShare.value)
  }

  lemma {:induction false} CrowdIsSpacious(w: World, name: nat -> string, n: nat)
    requires CanOverflow(w) && Naming(name) && n <= READ_LIMIT
    ensures Spacious(w, Listed(Newcomer(name), n))
  {
    PolicyNumbers(w);
    CrowdIsClean(name, n, TermsOf(w.policy).maxUtilization);
    forall q
      ensures QuotaFits(TermsOf(w.policy).limits.At(q).value, Total(Listed(NewcomerSeat(name), n), q), 1,
                        TermsOf(w.policy).minReserve.value, TermsOf(w.policy).maxShare.value)
    {
      SmallerQuotaFits(TermsOf(w.policy).limits.At(q).value, READ_LIMIT, 1, n, 1,
                       TermsOf(w.policy).minReserve.value, TermsOf(w.policy).maxShare.value);
    }
  }

  /** Nobody in the portfolio bears the name. */
  ghost predicate NewName(members: seq<RawTenant>, name: string) {
    forall i | 0 <= i < |members| ::
      SeatsOf(members)[i].Some? && SeatsOf(members)[i].value.id != name && SeatsOf(members)[i].value.customer != name
  }

  lemma {:induction false} NameIsNew(name: nat -> string, n: nat)
    requires Naming(name) && n < 1000
    ensures NewName(Listed(Newcomer(name), n), name(n))
  {
    CrowdIsClean(name, n, None);
    var entries := SeatsOf(Listed(Newcomer(name), n));
    forall i | 0 <= i < n
      ensures entries[i].Some? && entries[i].value.id != name(n) && entries[i].value.customer != name(n)
    {
      assert entries[i] == NewcomerSeat(name)(i);
      assert name(i) != name(n);
    }
  }

  lemma {:induction false} NewIsEnabled(w: World, members: seq<RawTenant>, name: string)
    requires UsableWorld(w) && Spacious(w, members) && IsTenantId(name) && Customer(name) == name != ""
    requires NewName(members, name)
    ensures Enabled(w, members, MinimalAdmission(w, name, name))
  {
    MinimalEnabledIff(w, members, name, name);
  }

  lemma {:induction false} NextIsEnabled(w: World, name: nat -> string, n: nat)
    requires CanOverflow(w) && Naming(name) && n <= READ_LIMIT
    ensures Enabled(w, Listed(Newcomer(name), n), MinimalAdmission(w, name(n), name(n)))
  {
    CrowdIsSpacious(w, name, n);
    NameIsNew(name, n);
    NewIsEnabled(w, Listed(Newcomer(name), n), name(n));
  }

  // ------------------------------------------------------------- past any limit

  /** After 500 newcomers the last one comes again and again. */
  function Place(n: nat): nat { if n <= READ_LIMIT then n else READ_LIMIT }

  function Comer(name: nat -> string): nat -> RawTenant { (k: nat) => Newcomer(name)(Place(k)) }

  function ComerSeat(name: nat -> string): nat -> Option<Seat> { (k: nat) => NewcomerSeat(name)(Place(k)) }

  lemma {:induction false} SameUpTo(name: nat -> string, n: nat)
    requires n <= READ_LIMIT
    ensures Listed(Comer(name), n) == Listed(Newcomer(name), n)
  {
  }

  lemma {:induction false} ListedPrefix<T>(item: nat -> T, m: nat, n: nat)
    requires m <= n
    ensures Listed(item, m) == Listed(item, n)[..m]
  {
  }

  function Coming(w: World, name: nat -> string): nat -> Event {
    (k: nat) => MinimalAdmission(w, name(Place(k)), name(Place(k)))
  }

  lemma {:induction false} EnabledLike(w: World, a: seq<RawTenant>, b: seq<RawTenant>, event: Event)
    requires event.Admit? && ReadPart(a) == ReadPart(b) && Enabled(w, a, event)
    ensures Enabled(w, b, event)
  {
    ReadPartDecides(w, a, b, event.upstream, event.request);
  }

  lemma {:induction false} SameReadPart(members: seq<RawTenant>)
    requires |members| >= READ_LIMIT
    ensures ReadPart(members[..READ_LIMIT]) == ReadPart(members)
  {
  }

  lemma {:induction false} FirstComers(name: nat -> string, n: nat)
    requires n > READ_LIMIT
    ensures Listed(Comer(name), n)[..READ_LIMIT] == Listed(Newcomer(name), READ_LIMIT)
  {
    SameUpTo(name, READ_LIMIT);
    ListedPrefix(Comer(name), READ_LIMIT, n);
  }

  lemma {:induction false} ComerIsEnabled(w: World, name: nat -> string, n: nat)
    requires CanOverflow(w) && Naming(name)
    ensures Enabled(w, Listed(Comer(name), n), Coming(w, name)(n))
  {
    NextIsEnabled(w, name, Place(n));
    if n <= READ_LIMIT {
      SameUpTo(name, n);
    } else {
      FirstComers(name, n);
      SameReadPart(Listed(Comer(name), n));
      EnabledLike(w, Listed(Newcomer(name), READ_LIMIT), Listed(Comer(name), n), Coming(w, name)(n));
    }
  }

  lemma {:induction false} OneMore<T>(item: nat -> T, n: nat)
    ensures Listed(item, n + 1) == Listed(item, n) + [item(n)]
  {
  }

  lemma {:induction false} ComerIs(w: World, name: nat -> string, n: nat)
    ensures Comer(name)(n) == MinimalTenant(name(Place(n)), name(Place(n)))
    ensures Coming(w, name)(n) == MinimalAdmission(w, name(Place(n)), name(Place(n)))
  {
    assert Comer(name)(n) == Newcomer(name)(Place(n));
    var m := Place(n);
    assert Newcomer(name)(m) == MinimalTenant(name(m), name(m));
  }

  lemma {:induction false} ComerIsStored(w: World, name: nat -> string, n: nat)
    requires Naming(name)
    ensures Applied(Listed(Comer(name), n), Coming(w, name)(n)) == Listed(Comer(name), n + 1)
  {
    var members, id := Listed(Comer(name), n), name(Place(n));
    ComerIs(w, name, n);
    MinimalApplied(w, members, id, id);
    OneMore(Comer(name), n);
    assert Applied(members, MinimalAdmission(w, id, id)) == members + [Comer(name)(n)];
  }

  function Comers(name: nat -> string): nat -> seq<RawTenant> { (k: nat) => Listed(Comer(name), k) }

  lemma {:induction false} ComerLeads(w: World, name: nat -> string, k: nat)
    requires CanOverflow(w) && Naming(name)
    ensures Leads(EnabledIn(w), Applied, Comers(name), Coming(w, name), k)
  {
    ComerIsEnabled(w, name, k);
    ComerIsStored(w, name, k);
  }

  lemma {:induction false} AllComeIn(w: World, name: nat -> string, n: nat) returns (events: seq<Event>)
    requires CanOverflow(w) && Naming(name)
    ensures Legal(EnabledIn(w), Applied, [], events) && Final(Applied, [], events) == Listed(Comer(name), n)
  {
    forall k: nat | k < n ensures Leads(EnabledIn(w), Applied, Comers(name), Coming(w, name), k) { ComerLeads(w, name, k); }
    ListedRun(EnabledIn(w), Applied, Comers(name), Coming(w, name), n);
    assert Comers(name)(0) == [];
    events := Listed(Coming(w, name), n);
  }

  lemma {:induction false} ComersTotal(name: nat -> string, n: nat, q: Quota)
    requires Naming(name)
    ensures Total(SeatsOf(Listed(Comer(name), n)), q) == n
  {
    forall k: nat | k < n
      ensures SeatOf(Comer(name)(k)) == ComerSeat(name)(k) && Amount(ComerSeat(name)(k), q) == 1
    {
      NewcomerIsSeated(name, Place(k));
      SeatIsSound(name, Place(k));
    }
    SeatsListed(Comer(name), ComerSeat(name), n);
    TotalListed(ComerSeat(name), n, q);
  }

  function Largest(limits: PerQuota<int>): (n: int)
    ensures forall q :: limits.At(q) <= n
  {
    var a := if limits.capacity > limits.calls then limits.capacity else limits.calls;
    var b := if limits.tokens > limits.tickets then limits.tokens else limits.tickets;
    if a > b then a else b
  }

  /** A world that can overflow has a run, of admissions only, after which every quota is
      past its limit. */
  lemma {:induction false} OverflowRun(w: World) returns (events: seq<Event>)
    requires CanOverflow(w)
    ensures ValidRun(w, [], events)
    ensures forall q :: Total(SeatsOf(After([], events)), q) > BoundsOf(w.policy).limits.At(q)
  {
    var largest := Largest(BoundsOf(w.policy).limits);
    var n: nat := if largest >= 0 then largest + 1 else 0;
    NamesExist();
    events := AllComeIn(w, Name, n);
    LegalIsValid(w, EnabledIn(w), events);
    SameEnd(events);
    forall q
      ensures Total(SeatsOf(After([], events)), q) > BoundsOf(w.policy).limits.At(q)
    {
      ComersTotal(Name, n, q);
    }
  }

  // ------------------------------------------------------------- and only there

  lemma {:induction false} TotalIsAtLeast(entries: seq<Option<Seat>>, q: Quota)
    requires forall i | 0 <= i < |entries| :: Amount(entries[i], q) >= 1
    ensures Total(entries, q) >= |entries|
  {
    if entries != [] { TotalIsAtLeast(entries[..|entries| - 1], q); }
  }

  lemma {:induction false} UnitsAreCounted(raw: RawTenant, q: Quota)
    requires SeatOf(raw).Some? && SeatOf(raw).value.quotas.At(q).Some?
    ensures Amount(SeatOf(raw), q) >= 1
  {
    SeatFigures(raw);
    assert SeatOf(raw).value.quotas.At(q) == PositiveInt(raw.quotas.At(q));
  }

  lemma {:induction false} CleanTotals(members: seq<RawTenant>, q: Quota)
    requires Clean(SeatsOf(members))
    ensures Total(SeatsOf(members), q) >= |members|
  {
    forall i | 0 <= i < |members|
      ensures Amount(SeatsOf(members)[i], q) >= 1
    {
      assert Sound(SeatsOf(members)[i].value);
      UnitsAreCounted(members[i], q);
    }
    TotalIsAtLeast(SeatsOf(members), q);
  }

  lemma {:induction false} ReviewableWorld(w: World, members: seq<RawTenant>, upstream: Upstream, request: Request)
    requires |members| <= READ_LIMIT && Assess(InputsAt(w, members, upstream, request)).state == Reviewable
    ensures UsableWorld(w) && Clean(SeatsOf(members)) && AllSome(AskOf(request).quotas)
    ensures UsableTerms(TermsOf(w.policy)) && |members| + 1 <= TermsOf(w.policy).maxActive.value
    ensures forall q :: QuotaFits(TermsOf(w.policy).limits.At(q).value, Total(SeatsOf(members), q),
                                  AskOf(request).quotas.At(q).value, TermsOf(w.policy).minReserve.value,
                                  TermsOf(w.policy).maxShare.value)
  {
    ReviewableIff(InputsAt(w, members, upstream, request));
    ReadEntries(w, members, upstream, request);
  }

  lemma {:induction false} RequestedIsPositive(request: Request, q: Quota)
    requires AllSome(AskOf(request).quotas)
    ensures AskOf(request).quotas.At(q).value >= 1
  {
    assert AskOf(request).quotas.At(q) == PositiveInt(request.quotas.At(q));
  }

  /** A 501st admission is possible only in a world that can overflow. */
  lemma {:induction false} FullPortfolio(w: World, members: seq<RawTenant>, upstream: Upstream, request: Request)
    requires |members| == READ_LIMIT && Assess(InputsAt(w, members, upstream, request)).state == Reviewable
    ensures CanOverflow(w)
  {
    ReviewableWorld(w, members, upstream, request);
    forall q
      ensures QuotaFits(TermsOf(w.policy).limits.At(q).value, READ_LIMIT, 1, TermsOf(w.policy).minReserve.value,
                        TermsOf(w.policy).maxShare.value)
    {
      CleanTotals(members, q);
      RequestedIsPositive(request, q);
      SmallerQuotaFits(TermsOf(w.policy).limits.At(q).value, Total(SeatsOf(members), q),
                       AskOf(request).quotas.At(q).value, READ_LIMIT, 1, TermsOf(w.policy).minReserve.value,
                       TermsOf(w.policy).maxShare.value);
    }
  }

  lemma {:induction false} EventKeepsSane(w: World, members: seq<RawTenant>, event: Event)
    requires |members| <= READ_LIMIT && Enabled(w, members, event) && Sane(BoundsOf(w.policy), SeatsOf(members))
    ensures Sane(BoundsOf(w.policy), SeatsOf(Applied(members, event)))
    ensures |Applied(members, event)| <= READ_LIMIT || CanOverflow(w)
  {
    match event
    case Admit(upstream, request, utilization) =>
      AdmitKeepsSane(w, members, upstream, request, utilization);
      if |members| == READ_LIMIT { FullPortfolio(w, members, upstream, request); }
    case Remove(at) => RemoveKeepsSane(BoundsOf(w.policy), members, at);
    case Observe(at, utilization) => ObserveKeepsSane(BoundsOf(w.policy), members, at, utilization);
  }

  /** In every other world every run stays within its bounds, whatever number of tenants
      the policy allows: the 500th tenant is never reached with room for another. */
  lemma {:induction false} NoOverflow(w: World, events: seq<Event>)
    requires !CanOverflow(w) && ValidRun(w, [], events)
    ensures Sane(BoundsOf(w.policy), SeatsOf(After([], events))) && |After([], events)| <= READ_LIMIT
  {
    if events != [] {
      var before, event := events[..|events| - 1], events[|events| - 1];
      NoOverflow(w, before);
      EventKeepsSane(w, After([], before), event);
    }
  }

  lemma {:induction false} PastALimit(bounds: Bounds, entries: seq<Option<Seat>>)
    requires Total(entries, CapacityUnits) > bounds.limits.At(CapacityUnits) >= 0
    ensures !Sane(bounds, entries)
  {
    assert entries != [];
    assert !QuotaWithin(bounds.limits.At(CapacityUnits), bounds.minReserve, bounds.maxShare, entries, CapacityUnits);
  }

  lemma {:induction false} LimitsAreNotNegative(w: World, q: Quota)
    requires UsableWorld(w)
    ensures BoundsOf(w.policy).limits.At(q) >= 0
  {
    PolicyNumbers(w);
    assert BoundsOf(w.policy).limits.At(q) == ValueOf(TermsOf(w.policy).limits.At(q));
  }

  /** Exactly when the gate can lose its bounds: some run of the world leaves them if and
      only if the policy allows more than 500 tenants and leaves room for a 501st minimal one. */
  lemma {:induction false} OverflowIff(w: World)
    ensures CanOverflow(w) <==>
            exists events: seq<Event> :: ValidRun(w, [], events) && !Sane(BoundsOf(w.policy), SeatsOf(After([], events)))
  {
    if CanOverflow(w) {
      var events := OverflowRun(w);
      LimitsAreNotNegative(w, CapacityUnits);
      PastALimit(BoundsOf(w.policy), SeatsOf(After([], events)));
      assert ValidRun(w, [], events) && !Sane(BoundsOf(w.policy), SeatsOf(After([], events)));
    } else {
      forall events: seq<Event> | ValidRun(w, [], events)
        ensures Sane(BoundsOf(w.policy), SeatsOf(After([], events)))
      {
        NoOverflow(w, events);
      }
    }
  }

  // -------------------------------------------------------------- such a world

  lemma {:induction false} FourRefs()
    ensures |Refs(["a", "b", "c", "d"])| == 4
  {
    ThreeRefs();
    RefsSnoc(["a", "b", "c"], 'd');
    assert ["a", "b", "c"] + ["d"] == ["a", "b", "c", "d"];
  }

  lemma {:induction false} MillionHasRoom(used: nat)
    requires used <= READ_LIMIT
    ensures QuotaFits(1_000_000, used, 1, 1.0, 1.0)
  {
    var left := Ratio(1_000_000 - (used + 1), 1_000_000);
    RoundIsClose(left);
    RoundIsClose(Ratio(1, 1_000_000));
  }

  const GENEROUS := Policy(
    true, true, Scope("o", "t", "w"), Integer(1000), Everywhere(Integer(1_000_000)), Integer(1), Integer(1), Integer(50),
    Integer(5), Integer(5), ["a", "b", "c", "d"])

  function Generous(): World {
    World(Scope("o", "t", "w"), GENEROUS,
          PortfolioState(true, true, Scope("o", "t", "w"), None, ["a", "b", "c", "d"]))
  }

  lemma {:induction false} GenerousTerms()
    ensures TermsOf(GENEROUS)
         == Terms(Some(1000), Everywhere(Some(1_000_000)), Some(1.0), Some(1.0), Some(50.0), Some(5), Some(5))
  {
  }

  lemma {:induction false} GenerousIsUsable()
    ensures UsableWorld(Generous())
  {
    GenerousTerms();
    FourRefs();
    OneLetter('o', 120);
    OneLetter('t', 120);
    OneLetter('w', 120);
    assert forall q :: Everywhere(Some(1_000_000)).At(q) == Some(1_000_000);
  }

  /** There is a world that can overflow. */
  lemma {:induction false} GenerousCanOverflow()
    ensures CanOverflow(Generous())
  {
    GenerousIsUsable();
    GenerousTerms();
    PolicyNumbers(Generous());
    assert forall q :: Everywhere(Some(1_000_000)).At(q) == Some(1_000_000);
    MillionHasRoom(READ_LIMIT);
  }

  // -------------------------------------------------------- one customer, twice

  /** There is room for two minimal tenants. */
  ghost predicate RoomForTwo(w: World) {
    && UsableTerms(TermsOf(w.policy)) && TermsOf(w.policy).maxActive.value >= 2
    && forall q :: QuotaFits(TermsOf(w.policy).limits.At(q).value, 1, 1, TermsOf(w.policy).minReserve.value,
                             TermsOf(w.policy).maxShare.value)
  }

  lemma {:induction false} SingleSeat(seat: Seat, cap: Option<real>)
    requires seat.named && seat.quotas == Everywhere(Some(1)) && seat.utilization == Everywhere(Some(0.0))
    requires cap.Some? ==> cap.value > 0.0
    ensures var entries := [Some(seat)];
            Clean(entries) && Quiet(entries, cap) && forall q :: Total(entries, q) == 1
  {
    assert forall q :: seat.quotas.At(q) == Some(1);
    assert forall q :: seat.utilization.At(q) == Some(0.0);
    forall q ensures Total([Some(seat)], q) == 1 { assert [Some(seat)][..0] == []; }
  }

  lemma {:induction false} OneSeat(customer: string, id: string, cap: Option<real>)
    requires IsTenantId(id) && Customer(customer) != "" && (cap.Some? ==> cap.value > 0.0)
    ensures var entries := SeatsOf([MinimalTenant(customer, id)]);
            && |entries| == 1 && entries[0].Some? && entries[0].value.id == id
            && entries[0].value.customer == Customer(Customer(customer)) && Clean(entries) && Quiet(entries, cap)
            && forall q :: Total(entries, q) == 1
  {
    MinimalSeat(customer, id);
    assert SeatsOf([MinimalTenant(customer, id)]) == [SeatOf(MinimalTenant(customer, id))];
    SingleSeat(SeatOf(MinimalTenant(customer, id)).value, cap);
  }

  lemma {:induction false} NothingIsSpacious(w: World)
    requires UsableWorld(w) && RoomForTwo(w)
    ensures Spacious(w, [])
  {
    forall q
      ensures QuotaFits(TermsOf(w.policy).limits.At(q).value, Total(SeatsOf([]), q), 1, TermsOf(w.policy).minReserve.value,
                        TermsOf(w.policy).maxShare.value)
    {
      SmallerQuotaFits(TermsOf(w.policy).limits.At(q).value, 1, 1, 0, 1, TermsOf(w.policy).minReserve.value,
                       TermsOf(w.policy).maxShare.value);
    }
  }

  lemma {:induction false} OneIsSpacious(w: World, customer: string, id: string)
    requires UsableWorld(w) && RoomForTwo(w) && IsTenantId(id) && Customer(customer) != ""
    ensures Spacious(w, [MinimalTenant(customer, id)])
  {
    PolicyNumbers(w);
    OneSeat(customer, id, TermsOf(w.policy).maxUtilization);
  }

  lemma {:induction false} FirstIsEnabled(w: World, customer: string, id: string)
    requires UsableWorld(w) && RoomForTwo(w) && Customer(customer) != "" && IsTenantId(id)
    ensures Enabled(w, [], MinimalAdmission(w, customer, id))
    ensures Applied([], MinimalAdmission(w, customer, id)) == [MinimalTenant(customer, id)]
  {
    NothingIsSpacious(w);
    MinimalEnabledIff(w, [], customer, id);
    MinimalApplied(w, [], customer, id);
  }

  lemma {:induction false} SecondIsEnabledIff(w: World, members: seq<RawTenant>, customer: string, other: string)
    requires UsableWorld(w) && Spacious(w, members) && Customer(customer) != "" && IsTenantId(other)
    requires |members| == 1 && SeatsOf(members)[0].Some? && SeatsOf(members)[0].value.id != other
    requires SeatsOf(members)[0].value.customer == Customer(Customer(customer))
    ensures Enabled(w, members, MinimalAdmission(w, customer, other)) <==> !StableCustomer(customer)
  {
    MinimalEnabledIff(w, members, customer, other);
  }

  /** After one admission of a customer, the same customer can be admitted again under
      another tenant id if and only if its id does not survive a second normalisation. */
  lemma {:induction false} AdmittedTwiceIff(w: World, customer: string, id: string, other: string)
    requires UsableWorld(w) && RoomForTwo(w) && Customer(customer) != ""
    requires IsTenantId(id) && IsTenantId(other) && id != other
    ensures Enabled(w, [], MinimalAdmission(w, customer, id))
    ensures var members := Applied([], MinimalAdmission(w, customer, id));
            && members == [MinimalTenant(customer, id)]
            && (Enabled(w, members, MinimalAdmission(w, customer, other)) <==> !StableCustomer(customer))
  {
    FirstIsEnabled(w, customer, id);
    OneIsSpacious(w, customer, id);
    OneSeat(customer, id, None);
    SecondIsEnabledIff(w, [MinimalTenant(customer, id)], customer, other);
  }

  lemma {:induction false} BlockedUnlessWellFormed(inputs: Inputs)
    ensures Assess(inputs).state == Blocked <==> !WellFormed(inputs)
  {
    FaultsIff(inputs);
    UniqueEmpty(FaultsOf(inputs, BooksFor(inputs)));
  }

  /** And from then on the portfolio blocks every request. */
  lemma {:induction false} TwiceIsBlocked(
    w: World, customer: string, id: string, other: string, upstream: Upstream, request: Request)
    requires IsTenantId(id) && IsTenantId(other) && Customer(customer) != ""
    ensures var members := [MinimalTenant(customer, id), MinimalTenant(customer, other)];
            Assess(InputsAt(w, members, upstream, request)).state == Blocked
  {
    var members := [MinimalTenant(customer, id), MinimalTenant(customer, other)];
    MinimalSeat(customer, id);
    MinimalSeat(customer, other);
    assert SeatsOf(members)[0].value.customer == SeatsOf(members)[1].value.customer;
    ReadEntries(w, members, upstream, request);
    BlockedUnlessWellFormed(InputsAt(w, members, upstream, request));
  }

  lemma {:induction false} GenerousHasRoomForTwo()
    ensures UsableWorld(Generous()) && RoomForTwo(Generous())
  {
    GenerousIsUsable();
    GenerousTerms();
    PolicyNumbers(Generous());
    assert forall q :: Everywhere(Some(1_000_000)).At(q) == Some(1_000_000);
    MillionHasRoom(1);
  }

  /** A customer that is admitted twice, in a world that exists: the run, after which every
      request is blocked. */
  lemma {:induction false} AdmittedTwice() returns (w: World, customer: string, events: seq<Event>)
    ensures |events| == 2 && ValidRun(w, [], events)
    ensures events[0].Admit? && events[1].Admit? && events[0].request.customer == events[1].request.customer == customer
    ensures forall upstream, request :: Assess(InputsAt(w, After([], events), upstream, request)).state == Blocked
  {
    w := Generous();
    customer := Unstable();
    GenerousHasRoomForTwo();
    NamesExist();
    events := TwiceIn(w, customer, Name(0), Name(1));
    LegalIsValid(w, EnabledIn(w), events);
    SameEnd(events);
    forall upstream, request
      ensures Assess(InputsAt(w, After([], events), upstream, request)).state == Blocked
    {
      TwiceIsBlocked(w, customer, Name(0), Name(1), upstream, request);
    }
  }

  lemma {:induction false} Unstable() returns (customer: string)
    ensures Customer(customer) != "" && !StableCustomer(customer)
  {
    var letters := seq(119, _ => 'x');
    customer := letters + " y";
    AnUnstableCustomer();
    assert Customer("") == "";
  }

  lemma {:induction false} TwoSteps<S(!new), E(!new)>(
    enabled: (S, E) -> bool, apply: (S, E) -> S, start: S, first: E, second: E)
    requires enabled(start, first) && enabled(apply(start, first), second)
    ensures Legal(enabled, apply, start, [first, second])
    ensures Final(apply, start, [first, second]) == apply(apply(start, first), second)
  {
    assert [first, second][..1] == [first] && [first][..0] == [];
    assert Legal(enabled, apply, start, []) && Final(apply, start, []) == start;
    assert Legal(enabled, apply, start, [first]) && Final(apply, start, [first]) == apply(start, first);
  }

  lemma {:induction false} TwiceApplied(w: World, customer: string, id: string, other: string)
    requires IsTenantId(other)
    ensures Applied([MinimalTenant(customer, id)], MinimalAdmission(w, customer, other))
         == [MinimalTenant(customer, id), MinimalTenant(customer, other)]
  {
    MinimalApplied(w, [MinimalTenant(customer, id)], customer, other);
  }

  lemma {:induction false} TwiceIn(w: World, customer: string, id: string, other: string) returns (events: seq<Event>)
    requires UsableWorld(w) && RoomForTwo(w) && Customer(customer) != "" && !StableCustomer(customer)
    requires IsTenantId(id) && IsTenantId(other) && id != other
    ensures events == [MinimalAdmission(w, customer, id), MinimalAdmission(w, customer, other)]
    ensures Legal(EnabledIn(w), Applied, [], events)
    ensures Final(Applied, [], events) == [MinimalTenant(customer, id), MinimalTenant(customer, other)]
  {
    var first, second := MinimalAdmission(w, customer, id), MinimalAdmission(w, customer, other);
    AdmittedTwiceIff(w, customer, id, other);
    TwiceApplied(w, customer, id, other);
    TwoSteps(EnabledIn(w), Applied, [], first, second);
    events := [first, second];
  }
}
