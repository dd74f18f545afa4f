/** Whole runs of the multi-company gate: portfolios built from nothing by reviewable
    admissions, removals and fresh utilisation figures, under one fixed policy. */
module AdmissionRuns {
  import opened Wrappers
  import opened AdmissionData
  import opened Portfolio
  import opened Admission
  import opened AdmissionLaws

  /** What stays fixed during a run; the tenants of `header` are those of the moment. */
  datatype World = World(trusted: Scope, policy: Policy, header: PortfolioState)

  datatype Event =
    | Admit(upstream: Upstream, request: Request, utilization: PerQuota<Raw>)
    | Remove(at: nat)
    | Observe(at: nat, utilization: PerQuota<Raw>)

  function InputsAt(world: World, members: seq<RawTenant>, upstream: Upstream, request: Request): Inputs {
    Inputs(world.trusted, upstream, request, world.header.(tenants := Some(members)), world.policy)
  }

  function AsRaw(value: Option<int>): Raw {
    if value.Some? then Integer(value.value) else Unusable
  }

  /** The tenant that an approved proposal adds to the portfolio. */
  function Stored(ask: Ask, utilization: PerQuota<Raw>): RawTenant {
    Tenant(ask.tenantId, ask.customer, ask.package, Each(AsRaw, ask.quotas), utilization)
  }

  ghost predicate Percentages(utilization: PerQuota<Raw>) {
    forall q :: Percent(utilization.At(q)).Some?
  }

  ghost predicate Enabled(world: World, members: seq<RawTenant>, event: Event) {
    match event
    case Admit(upstream, request, utilization) =>
      Percentages(utilization) && Assess(InputsAt(world, members, upstream, request)).state == Reviewable
    case Remove(at) => at < |members|
    case Observe(at, utilization) => at < |members| && members[at].Tenant? && Percentages(utilization)
  }

  function Applied(members: seq<RawTenant>, event: Event): seq<RawTenant> {
    match event
    case Admit(_, request, utilization) => members + [Stored(AskOf(request), utilization)]
    case Remove(at) => if at < |members| then members[..at] + members[at + 1..] else members
    case Observe(at, utilization) =>
      if at < |members| && members[at].Tenant? then members[at := members[at].(utilization := utilization)] else members
  }

  function After(members: seq<RawTenant>, events: seq<Event>): seq<RawTenant> {
    if events == [] then members else Applied(After(members, events[..|events| - 1]), events[|events| - 1])
  }

  ghost predicate ValidRun(world: World, members: seq<RawTenant>, events: seq<Event>) {
    events == [] ||
    (ValidRun(world, members, events[..|events| - 1])
     && Enabled(world, After(members, events[..|events| - 1]), events[|events| - 1]))
  }

  // ------------------------------------------------------------- totals and edits

  lemma {:induction false} SeatsSnoc(members: seq<RawTenant>, raw: RawTenant)
    ensures SeatsOf(members + [raw]) == SeatsOf(members) + [SeatOf(raw)]
  {
    assert (members + [raw])[..|members|] == members;
  }

  lemma {:induction false} TotalSnoc(entries: seq<Option<Seat>>, entry: Option<Seat>, q: Quota)
    ensures Total(entries + [entry], q) == Total(entries, q) + Amount(entry, q)
  {
    assert (entries + [entry])[..|entries|] == entries;
  }

  function Without<T>(items: seq<T>, at: nat): seq<T>
    requires at < |items|
  {
    items[..at] + items[at + 1..]
  }

  lemma {:induction false} TotalWithout(entries: seq<Option<Seat>>, at: nat, q: Quota)
    requires at < |entries|
    ensures Total(Without(entries, at), q) + Amount(entries[at], q) == Total(entries, q)
  {
    var before, last := entries[..|entries| - 1], entries[|entries| - 1];
    if at == |entries| - 1 {
      assert Without(entries, at) == before;
    } else {
      TotalWithout(before, at, q);
      assert Without(entries, at) == Without(before, at) + [last];
      TotalSnoc(Without(before, at), last, q);
    }
  }

  lemma {:induction false} SameAmountsSameTotal(a: seq<Option<Seat>>, b: seq<Option<Seat>>, q: Quota)
    requires |a| == |b| && forall i | 0 <= i < |a| :: Amount(a[i], q) == Amount(b[i], q)
    ensures Total(a, q) == Total(b, q)
  {
    if a != [] { SameAmountsSameTotal(a[..|a| - 1], b[..|b| - 1], q); }
  }

  lemma {:induction false} SeatsWithout(members: seq<RawTenant>, at: nat)
    requires at < |members|
    ensures SeatsOf(Without(members, at)) == Without(SeatsOf(members), at)
  {
  }

  lemma {:induction false} AmountsArePositive(raw: RawTenant, q: Quota)
    ensures Amount(SeatOf(raw), q) >= 0
  {
  }

  lemma {:induction false} RemovalLowersTotal(members: seq<RawTenant>, at: nat, q: Quota)
    requires at < |members|
    ensures Total(SeatsOf(Without(members, at)), q) <= Total(SeatsOf(members), q)
  {
    SeatsWithout(members, at);
    TotalWithout(SeatsOf(members), at, q);
    AmountsArePositive(members[at], q);
  }

  /** How an admitted tenant reads back: its customer id is normalised once more. */
  lemma {:induction false} AdmittedNames(ask: Ask, request: Request, utilization: PerQuota<Raw>)
    requires ask == AskOf(request) && ask.customer != "" && IsTenantId(ask.tenantId) && ask.package != ""
    ensures var seat := SeatOf(Stored(ask, utilization));
            && seat.Some? && seat.value.named && seat.value.id == ask.tenantId
            && seat.value.customer == Customer(ask.customer)
  {
    StoredTenantId(ask.tenantId);
    StoredCustomer(request.customer);
    StoredPackage(request.package);
  }

  /** Figures written out as numbers read back as the same numbers. */
  lemma {:induction false} ReadsBack(raw: PerQuota<Raw>, values: PerQuota<Option<int>>, q: Quota)
    requires values == Each(PositiveInt, raw)
    ensures Each(PositiveInt, Each(AsRaw, values)).At(q) == values.At(q)
  {
  }

  lemma {:induction false} SeatFigures(raw: RawTenant)
    requires raw.Tenant?
    ensures var seat := SeatOf(raw);
            && seat.Some? && seat.value.quotas == Each(PositiveInt, raw.quotas)
            && seat.value.utilization == Each(Percent, raw.utilization)
  {
  }

  lemma {:induction false} PercentagesRead(utilization: PerQuota<Raw>, q: Quota)
    requires Percentages(utilization)
    ensures Each(Percent, utilization).At(q).Some?
  {
    assert Percent(utilization.At(q)).Some?;
  }

  lemma {:induction false} AdmittedFigures(ask: Ask, request: Request, utilization: PerQuota<Raw>)
    requires ask.quotas == Each(PositiveInt, request.quotas) && AllSome(ask.quotas) && Percentages(utilization)
    ensures var seat := SeatOf(Stored(ask, utilization));
            && seat.Some?
            && (forall q :: seat.value.quotas.At(q).Some? && seat.value.utilization.At(q).Some?)
            && (forall q :: Amount(seat, q) == ask.quotas.At(q).value)
  {
    var seat := SeatOf(Stored(ask, utilization));
    SeatFigures(Stored(ask, utilization));
    forall q
      ensures seat.value.quotas.At(q) == ask.quotas.At(q) && seat.value.utilization.At(q).Some?
    {
      ReadsBack(request.quotas, ask.quotas, q);
      PercentagesRead(utilization, q);
    }
  }

  // ------------------------------------------------------------ the run invariant

  /** All entries are sound and no two share a tenant id. */
  ghost predicate DistinctTenants(entries: seq<Option<Seat>>) {
    && (forall i | 0 <= i < |entries| :: entries[i].Some? && Sound(entries[i].value))
    && (forall i, j | 0 <= i < j < |entries| :: entries[i].value.id != entries[j].value.id)
  }

  ghost predicate DistinctCustomers(entries: seq<Option<Seat>>) {
    && (forall i | 0 <= i < |entries| :: entries[i].Some?)
    && (forall i, j | 0 <= i < j < |entries| :: entries[i].value.customer != entries[j].value.customer)
  }

  /** One quota is within its limit, its exact reserve and every exact share at most
      half a hundredth of a point past the policy. */
  ghost predicate QuotaWithin(limit: int, minReserve: real, maxShare: real, entries: seq<Option<Seat>>, q: Quota) {
    && limit > 0 && Total(entries, q) <= limit
    && Ratio(limit - Total(entries, q), limit) >= minReserve - 0.005
    && forall i | 0 <= i < |entries| :: Ratio(Amount(entries[i], q), limit) <= maxShare + 0.005
  }

  /** The numbers of a usable policy that a run must respect. */
  datatype Bounds = Bounds(limits: PerQuota<int>, minReserve: real, maxShare: real, maxActive: int)

  function ValueOf(value: Option<int>): int { if value.Some? then value.value else 0 }

  function Level(value: Option<real>): real { if value.Some? then value.value else 0.0 }

  function BoundsFrom(terms: Terms): Bounds {
    Bounds(Each(ValueOf, terms.limits), Level(terms.minReserve), Level(terms.maxShare), ValueOf(terms.maxActive))
  }

  function BoundsOf(policy: Policy): Bounds { BoundsFrom(TermsOf(policy)) }

  ghost predicate Within(bounds: Bounds, entries: seq<Option<Seat>>) {
    && |entries| <= bounds.maxActive
    && forall q :: QuotaWithin(bounds.limits.At(q), bounds.minReserve, bounds.maxShare, entries, q)
  }

  ghost predicate Sane(bounds: Bounds, entries: seq<Option<Seat>>) {
    DistinctTenants(entries) && (entries == [] || Within(bounds, entries))
  }

  /** The policy admits no more tenants than the gate reads. */
  predicate ReadsWholePortfolio(policy: Policy) {
    PositiveInt(policy.maxActive).Some? ==> PositiveInt(policy.maxActive).value <= READ_LIMIT
  }

  lemma {:induction false} QuotaSnoc(
    limit: int, minReserve: real, maxShare: real, entries: seq<Option<Seat>>, entry: Option<Seat>, q: Quota)
    requires limit > 0 && QuotaFits(limit, Total(entries, q), Amount(entry, q), minReserve, maxShare)
    requires entries == [] || QuotaWithin(limit, minReserve, maxShare, entries, q)
    ensures QuotaWithin(limit, minReserve, maxShare, entries + [entry], q)
  {
    TotalSnoc(entries, entry, q);
    var longer := entries + [entry];
    ExactFigures(limit, Total(longer, q), Amount(entry, q), minReserve, maxShare);
    forall i | 0 <= i < |longer|
      ensures Ratio(Amount(longer[i], q), limit) <= maxShare + 0.005
    {
      if i < |entries| { assert longer[i] == entries[i]; }
    }
  }

  lemma {:induction false} QuotaWithout(
    limit: int, minReserve: real, maxShare: real, entries: seq<Option<Seat>>, at: nat, q: Quota)
    requires QuotaWithin(limit, minReserve, maxShare, entries, q)
    requires at < |entries| && Amount(entries[at], q) >= 0
    ensures QuotaWithin(limit, minReserve, maxShare, Without(entries, at), q)
  {
    var fewer := Without(entries, at);
    TotalWithout(entries, at, q);
    RatioIsMonotone(limit - Total(entries, q), limit - Total(fewer, q), limit);
    assert forall i | 0 <= i < |fewer| :: fewer[i] == entries[if i < at then i else i + 1];
  }

  lemma {:induction false} SaneSnoc(bounds: Bounds, entries: seq<Option<Seat>>, entry: Option<Seat>)
    requires Sane(bounds, entries) && entry.Some? && Sound(entry.value)
    requires forall i | 0 <= i < |entries| :: entries[i].value.id != entry.value.id
    requires |entries| + 1 <= bounds.maxActive && forall q :: bounds.limits.At(q) > 0
    requires forall q :: QuotaFits(bounds.limits.At(q), Total(entries, q), Amount(entry, q),
                                   bounds.minReserve, bounds.maxShare)
    ensures Sane(bounds, entries + [entry])
  {
    var longer := entries + [entry];
    assert forall i | 0 <= i < |entries| :: longer[i] == entries[i];
    forall q
      ensures QuotaWithin(bounds.limits.At(q), bounds.minReserve, bounds.maxShare, longer, q)
    {
      QuotaSnoc(bounds.limits.At(q), bounds.minReserve, bounds.maxShare, entries, entry, q);
    }
  }

  lemma {:induction false} SaneWithout(bounds: Bounds, entries: seq<Option<Seat>>, at: nat)
    requires Sane(bounds, entries) && at < |entries| && forall q :: Amount(entries[at], q) >= 0
    ensures Sane(bounds, Without(entries, at))
  {
    var fewer := Without(entries, at);
    assert forall i | 0 <= i < |fewer| :: fewer[i] == entries[if i < at then i else i + 1];
    forall q
      ensures QuotaWithin(bounds.limits.At(q), bounds.minReserve, bounds.maxShare, fewer, q)
    {
      QuotaWithout(bounds.limits.At(q), bounds.minReserve, bounds.maxShare, entries, at, q);
    }
  }

  lemma {:induction false} SaneObserved(bounds: Bounds, entries: seq<Option<Seat>>, at: nat, seat: Seat)
    requires Sane(bounds, entries) && at < |entries| && Sound(seat)
    requires seat.id == entries[at].value.id && seat.quotas == entries[at].value.quotas
    ensures Sane(bounds, entries[at := Some(seat)])
  {
    var entries' := entries[at := Some(seat)];
    assert forall i | 0 <= i < |entries| && i != at :: entries'[i] == entries[i];
    forall q
      ensures QuotaWithin(bounds.limits.At(q), bounds.minReserve, bounds.maxShare, entries', q)
    {
      assert QuotaWithin(bounds.limits.At(q), bounds.minReserve, bounds.maxShare, entries, q);
      SameAmountsSameTotal(entries, entries', q);
    }
  }

  // ----------------------------------------------------------------- the run steps

  ghost predicate FitsBounds(bounds: Bounds, ask: Ask, entries: seq<Option<Seat>>) {
    && AllSome(ask.quotas) && Clean(entries) && |entries| + 1 <= bounds.maxActive
    && (forall i | 0 <= i < |entries| ::
          entries[i].value.id != ask.tenantId && entries[i].value.customer != ask.customer)
    && (forall q :: bounds.limits.At(q) > 0)
    && (forall q :: QuotaFits(bounds.limits.At(q), Total(entries, q), ask.quotas.At(q).value,
                              bounds.minReserve, bounds.maxShare))
  }

  lemma {:induction false} FitsAsBounds(terms: Terms, ask: Ask, entries: seq<Option<Seat>>)
    requires terms.maxActive.Some? && AllSome(terms.limits) && terms.minReserve.Some? && terms.maxShare.Some?
    requires terms.maxUtilization.Some? && terms.maxChannels.Some? && terms.maxIntegrations.Some?
    requires AllSome(ask.quotas) && ask.channels.Some? && ask.integrations.Some? && ask.peak.Some?
    requires forall r :: terms.limits.At(r).Some? ==> terms.limits.At(r).value > 0
    requires Clean(entries) && Fits(terms, ask, entries)
    ensures FitsBounds(BoundsFrom(terms), ask, entries)
  {
    var bounds := BoundsFrom(terms);
    forall q
      ensures bounds.limits.At(q) > 0
      ensures bounds.limits.At(q) > 0 ==>
                QuotaFits(bounds.limits.At(q), Total(entries, q), ask.quotas.At(q).value,
                          bounds.minReserve, bounds.maxShare)
    {
      assert bounds.limits.At(q) == terms.limits.At(q).value;
      assert QuotaFits(terms.limits.At(q).value, Total(entries, q), ask.quotas.At(q).value,
                       terms.minReserve.value, terms.maxShare.value);
    }
  }

  /** What a reviewable request says about the seats already there. */
  lemma {:induction false} ReviewableFits(
    world: World, members: seq<RawTenant>, upstream: Upstream, request: Request)
    requires |members| <= READ_LIMIT
    requires Assess(InputsAt(world, members, upstream, request)).state == Reviewable
    ensures GoodPolicy(world.policy, world.trusted) && GoodRequest(request, world.trusted, upstream)
    ensures FitsBounds(BoundsOf(world.policy), AskOf(request), SeatsOf(members))
  {
    var inputs := InputsAt(world, members, upstream, request);
    ReviewableIff(inputs);
    assert Entries(inputs.portfolio) == SeatsOf(members);
    FitsAsBounds(TermsOf(world.policy), AskOf(request), SeatsOf(members));
  }

  lemma {:induction false} AdmitKeepsSane(
    world: World, members: seq<RawTenant>, upstream: Upstream, request: Request, utilization: PerQuota<Raw>)
    requires Sane(BoundsOf(world.policy), SeatsOf(members)) && |members| <= READ_LIMIT && Percentages(utilization)
    requires Assess(InputsAt(world, members, upstream, request)).state == Reviewable
    ensures Sane(BoundsOf(world.policy), SeatsOf(members + [Stored(AskOf(request), utilization)]))
  {
    var ask := AskOf(request);
    ReviewableFits(world, members, upstream, request);
    AdmittedNames(ask, request, utilization);
    AdmittedFigures(ask, request, utilization);
    SeatsSnoc(members, Stored(ask, utilization));
    SaneSnoc(BoundsOf(world.policy), SeatsOf(members), SeatOf(Stored(ask, utilization)));
  }

  lemma {:induction false} RemoveKeepsSane(bounds: Bounds, members: seq<RawTenant>, at: nat)
    requires Sane(bounds, SeatsOf(members)) && at < |members|
    ensures Sane(bounds, SeatsOf(Without(members, at)))
  {
    SeatsWithout(members, at);
    forall q ensures Amount(SeatsOf(members)[at], q) >= 0 { AmountsArePositive(members[at], q); }
    SaneWithout(bounds, SeatsOf(members), at);
  }

  lemma {:induction false} SeatsChanged(members: seq<RawTenant>, at: nat, raw: RawTenant)
    requires at < |members|
    ensures SeatsOf(members[at := raw]) == SeatsOf(members)[at := SeatOf(raw)]
  {
  }

  /** An observation replaces the four percentages and nothing else. */
  lemma {:induction false} ObservedSeat(raw: RawTenant, utilization: PerQuota<Raw>)
    requires raw.Tenant?
    ensures SeatOf(raw).Some?
    ensures SeatOf(raw.(utilization := utilization))
         == Some(SeatOf(raw).value.(utilization := Each(Percent, utilization)))
  {
  }

  lemma {:induction false} ObservedIsSound(seat: Seat, utilization: PerQuota<Raw>)
    requires Sound(seat) && Percentages(utilization)
    ensures Sound(seat.(utilization := Each(Percent, utilization)))
  {
    forall q ensures Each(Percent, utilization).At(q).Some? { PercentagesRead(utilization, q); }
  }

  lemma {:induction false} ObserveKeepsSane(
    bounds: Bounds, members: seq<RawTenant>, at: nat, utilization: PerQuota<Raw>)
    requires Sane(bounds, SeatsOf(members)) && at < |members| && members[at].Tenant? && Percentages(utilization)
    ensures Sane(bounds, SeatsOf(members[at := members[at].(utilization := utilization)]))
  {
    var seat := SeatsOf(members)[at].value;
    ObservedSeat(members[at], utilization);
    ObservedIsSound(seat, utilization);
    SeatsChanged(members, at, members[at].(utilization := utilization));
    SaneObserved(bounds, SeatsOf(members), at, seat.(utilization := Each(Percent, utilization)));
  }

  lemma {:induction false} StepKeepsSane(world: World, members: seq<RawTenant>, event: Event)
    requires ReadsWholePortfolio(world.policy) && Enabled(world, members, event)
    requires Sane(BoundsOf(world.policy), SeatsOf(members))
    ensures Sane(BoundsOf(world.policy), SeatsOf(Applied(members, event)))
  {
    match event
    case Admit(upstream, request, utilization) => AdmitKeepsSane(world, members, upstream, request, utilization);
    case Remove(at) => RemoveKeepsSane(BoundsOf(world.policy), members, at);
    case Observe(at, utilization) => ObserveKeepsSane(BoundsOf(world.policy), members, at, utilization);
  }

  /** Every portfolio reached from nothing has sound entries with pairwise distinct
      tenant ids, no more tenants than the policy allows, and every quota within its
      limit, reserve and concentration. */
  lemma {:induction false} EveryPortfolioIsSane(world: World, events: seq<Event>)
    requires ReadsWholePortfolio(world.policy) && ValidRun(world, [], events)
    ensures Sane(BoundsOf(world.policy), SeatsOf(After([], events)))
  {
    if events != [] {
      var before, event := events[..|events| - 1], events[|events| - 1];
      EveryPortfolioIsSane(world, before);
      StepKeepsSane(world, After([], before), event);
    }
  }
}
