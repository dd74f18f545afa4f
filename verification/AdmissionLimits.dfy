/** Monotone verdicts, and the two places where the gate promises less than it seems:
    customer ids that do not survive a second normalisation, and tenants past the 500th. */
module AdmissionLimits {
  import opened Wrappers
  import opened Texts
  import opened AdmissionData
  import opened Portfolio
  import opened Admission
  import opened AdmissionLaws
  import opened AdmissionRuns

  // -------------------------------------------------------------------- monotone

  ghost predicate NoMore(less: PerQuota<Option<int>>, more: PerQuota<Option<int>>) {
    forall q :: less.At(q).Some? && more.At(q).Some? ==> less.At(q).value <= more.At(q).value
  }

  /** The same names, and every figure usable and no larger. */
  ghost predicate AsksNoMore(less: Ask, more: Ask) {
    && less.customer == more.customer && less.tenantId == more.tenantId && less.package == more.package
    && AllSome(less.quotas) && AllSome(more.quotas) && NoMore(less.quotas, more.quotas)
    && less.channels.Some? && more.channels.Some? && less.channels.value <= more.channels.value
    && less.integrations.Some? && more.integrations.Some? && less.integrations.value <= more.integrations.value
    && less.peak.Some? && more.peak.Some? && less.peak.value <= more.peak.value
  }

  lemma {:induction false} SmallerQuotaFits(
    limit: int, used: int, requested: int, used': int, requested': int, minReserve: real, maxShare: real)
    requires limit > 0 && used' <= used && requested' <= requested
    requires QuotaFits(limit, used, requested, minReserve, maxShare)
    ensures QuotaFits(limit, used', requested', minReserve, maxShare)
  {
    ReserveFallsWithUse(limit, used' + requested', used + requested);
    ShareGrowsWithRequest(limit, requested', requested);
  }

  ghost predicate UsableTerms(terms: Terms) {
    && terms.maxActive.Some? && AllSome(terms.limits) && terms.minReserve.Some? && terms.maxShare.Some?
    && terms.maxUtilization.Some? && terms.maxChannels.Some? && terms.maxIntegrations.Some?
    && forall r :: terms.limits.At(r).Some? ==> terms.limits.At(r).value > 0
  }

  lemma {:induction false} SmallerAskFits(terms: Terms, less: Ask, more: Ask, entries: seq<Option<Seat>>)
    requires UsableTerms(terms) && Clean(entries) && AsksNoMore(less, more) && Fits(terms, more, entries)
    ensures Fits(terms, less, entries)
  {
    forall q
      ensures QuotaFits(terms.limits.At(q).value, Total(entries, q), less.quotas.At(q).value,
                        terms.minReserve.value, terms.maxShare.value)
    {
      SmallerQuotaFits(terms.limits.At(q).value, Total(entries, q), more.quotas.At(q).value, Total(entries, q),
                       less.quotas.At(q).value, terms.minReserve.value, terms.maxShare.value);
    }
  }

  /** A reviewable request stays reviewable, through all the rounding, when it asks for
      less of anything. */
  lemma {:induction false} AskingLessStaysReviewable(inputs: Inputs, request: Request)
    requires Assess(inputs).state == Reviewable
    requires request.scope == inputs.request.scope && request.refs == inputs.request.refs
    requires AsksNoMore(AskOf(request), AskOf(inputs.request))
    ensures Assess(inputs.(request := request)).state == Reviewable
  {
    var inputs' := inputs.(request := request);
    ReviewableIff(inputs);
    ReviewableIff(inputs');
    assert WellFormed(inputs');
    SmallerAskFits(TermsOf(inputs.policy), AskOf(request), AskOf(inputs.request), Entries(inputs.portfolio));
  }

  lemma {:induction false} CleanWithout(entries: seq<Option<Seat>>, at: nat)
    requires at < |entries| && Clean(entries)
    ensures Clean(Without(entries, at))
  {
    var fewer := Without(entries, at);
    assert forall i | 0 <= i < |fewer| :: fewer[i] == entries[if i < at then i else i + 1];
  }

  lemma {:induction false} FewerSeatsFit(terms: Terms, ask: Ask, entries: seq<Option<Seat>>, at: nat)
    requires UsableTerms(terms) && AllSome(ask.quotas) && ask.channels.Some? && ask.integrations.Some? && ask.peak.Some?
    requires Clean(entries) && Fits(terms, ask, entries)
    requires at < |entries| && forall q :: Amount(entries[at], q) >= 0
    ensures Clean(Without(entries, at)) && Fits(terms, ask, Without(entries, at))
  {
    CleanWithout(entries, at);
    var fewer := Without(entries, at);
    assert forall i | 0 <= i < |fewer| :: fewer[i] == entries[if i < at then i else i + 1];
    forall q
      ensures QuotaFits(terms.limits.At(q).value, Total(fewer, q), ask.quotas.At(q).value,
                        terms.minReserve.value, terms.maxShare.value)
    {
      TotalWithout(entries, at, q);
      SmallerQuotaFits(terms.limits.At(q).value, Total(entries, q), ask.quotas.At(q).value, Total(fewer, q),
                       ask.quotas.At(q).value, terms.minReserve.value, terms.maxShare.value);
    }
  }

  /** So does one whose portfolio loses a tenant, as long as the gate reads all of it. */
  lemma {:induction false} RemovalStaysReviewable(
    world: World, members: seq<RawTenant>, upstream: Upstream, request: Request, at: nat)
    requires |members| <= READ_LIMIT && at < |members|
    requires Assess(InputsAt(world, members, upstream, request)).state == Reviewable
    ensures Assess(InputsAt(world, Without(members, at), upstream, request)).state == Reviewable
  {
    var inputs, inputs' := InputsAt(world, members, upstream, request),
                           InputsAt(world, Without(members, at), upstream, request);
    ReviewableIff(inputs);
    ReviewableIff(inputs');
    assert Entries(inputs.portfolio) == SeatsOf(members);
    assert Entries(inputs'.portfolio) == SeatsOf(Without(members, at));
    SeatsWithout(members, at);
    forall q ensures Amount(SeatsOf(members)[at], q) >= 0 { AmountsArePositive(members[at], q); }
    FewerSeatsFit(TermsOf(world.policy), AskOf(request), SeatsOf(members), at);
  }

  // ----------------------------------------------------------------- customer ids

  lemma {:induction false} CleanIffDistinct(entries: seq<Option<Seat>>)
    requires DistinctTenants(entries)
    ensures Clean(entries) <==> DistinctCustomers(entries)
  {
  }

  /** A reached portfolio is read back without blockers exactly when the customer ids
      are still distinct after their second normalisation. */
  lemma {:induction false} ReachedIsCleanIff(world: World, events: seq<Event>, cap: Option<real>)
    requires ReadsWholePortfolio(world.policy) && ValidRun(world, [], events)
    ensures var entries := SeatsOf(After([], events));
            BooksOf(entries, cap).blockers == [] <==> DistinctCustomers(entries)
  {
    var entries := SeatsOf(After([], events));
    EveryPortfolioIsSane(world, events);
    CleanIffDistinct(entries);
    NoBlockersIffClean(entries, cap);
  }

  ghost predicate StableAdmissions(events: seq<Event>) {
    forall i | 0 <= i < |events| :: events[i].Admit? ==> StableCustomer(events[i].request.customer)
  }

  lemma {:induction false} CustomersWithout(entries: seq<Option<Seat>>, at: nat)
    requires at < |entries| && DistinctCustomers(entries)
    ensures DistinctCustomers(Without(entries, at))
  {
    var fewer := Without(entries, at);
    assert forall i | 0 <= i < |fewer| :: fewer[i] == entries[if i < at then i else i + 1];
  }

  lemma {:induction false} CustomersSnoc(entries: seq<Option<Seat>>, entry: Option<Seat>)
    requires DistinctCustomers(entries) && entry.Some?
    ensures DistinctCustomers(entries + [entry]) <==>
            forall i | 0 <= i < |entries| :: entries[i].value.customer != entry.value.customer
  {
    var longer := entries + [entry];
    assert longer[|entries|] == entry;
    assert forall i | 0 <= i < |entries| :: longer[i] == entries[i];
  }

  /** The seat that an admission adds, seen from the entries alone. */
  lemma {:induction false} Admitted(
    world: World, members: seq<RawTenant>, upstream: Upstream, request: Request, utilization: PerQuota<Raw>)
    returns (seat: Seat)
    requires |members| <= READ_LIMIT && Percentages(utilization)
    requires Assess(InputsAt(world, members, upstream, request)).state == Reviewable
    ensures SeatsOf(members + [Stored(AskOf(request), utilization)]) == SeatsOf(members) + [Some(seat)]
    ensures Sound(seat) && seat.customer == Customer(Customer(request.customer))
    ensures Clean(SeatsOf(members))
    ensures forall i | 0 <= i < |members| ::
              SeatsOf(members)[i].value.id != seat.id && SeatsOf(members)[i].value.customer != Customer(request.customer)
  {
    var ask := AskOf(request);
    ReviewableFits(world, members, upstream, request);
    AdmittedNames(ask, request, utilization);
    AdmittedFigures(ask, request, utilization);
    SeatsSnoc(members, Stored(ask, utilization));
    seat := SeatOf(Stored(ask, utilization)).value;
  }

  lemma {:induction false} CleanWithOneMore(entries: seq<Option<Seat>>, seat: Seat)
    requires Clean(entries) && Sound(seat) && forall i | 0 <= i < |entries| :: entries[i].value.id != seat.id
    ensures Clean(entries + [Some(seat)]) <==>
            forall i | 0 <= i < |entries| :: entries[i].value.customer != seat.customer
  {
    var longer := entries + [Some(seat)];
    assert longer[|entries|] == Some(seat);
    assert forall i | 0 <= i < |entries| :: longer[i] == entries[i];
  }

  /** One admission leaves a clean portfolio clean exactly when the stored customer id,
      normalised once more, is not in use. */
  lemma {:induction false} AdmissionStaysCleanIff(
    world: World, members: seq<RawTenant>, upstream: Upstream, request: Request, utilization: PerQuota<Raw>)
    requires |members| <= READ_LIMIT && Percentages(utilization)
    requires Assess(InputsAt(world, members, upstream, request)).state == Reviewable
    ensures var entries := SeatsOf(members);
            && Clean(entries)
            && (Clean(SeatsOf(members + [Stored(AskOf(request), utilization)])) <==>
                forall i | 0 <= i < |entries| :: entries[i].value.customer != Customer(Customer(request.customer)))
  {
    var seat := Admitted(world, members, upstream, request, utilization);
    CleanWithOneMore(SeatsOf(members), seat);
  }

  lemma {:induction false} StableAdmissionKeepsCustomers(
    world: World, members: seq<RawTenant>, upstream: Upstream, request: Request, utilization: PerQuota<Raw>)
    requires |members| <= READ_LIMIT && Percentages(utilization) && StableCustomer(request.customer)
    requires Assess(InputsAt(world, members, upstream, request)).state == Reviewable
    ensures DistinctCustomers(SeatsOf(members + [Stored(AskOf(request), utilization)]))
  {
    var seat := Admitted(world, members, upstream, request, utilization);
    CustomersSnoc(SeatsOf(members), Some(seat));
  }

  lemma {:induction false} ObservationKeepsCustomers(members: seq<RawTenant>, at: nat, utilization: PerQuota<Raw>)
    requires DistinctCustomers(SeatsOf(members)) && at < |members| && members[at].Tenant?
    ensures DistinctCustomers(SeatsOf(members[at := members[at].(utilization := utilization)]))
  {
    var seats, seats' := SeatsOf(members), SeatsOf(members[at := members[at].(utilization := utilization)]);
    assert forall i | 0 <= i < |seats| && i != at :: seats'[i] == seats[i];
    assert seats'[at].value.customer == seats[at].value.customer;
  }

  lemma {:induction false} StepKeepsCustomers(world: World, members: seq<RawTenant>, event: Event)
    requires |members| <= READ_LIMIT && Enabled(world, members, event)
    requires event.Admit? ==> StableCustomer(event.request.customer)
    requires DistinctCustomers(SeatsOf(members))
    ensures DistinctCustomers(SeatsOf(Applied(members, event)))
  {
    match event
    case Admit(upstream, request, utilization) =>
      StableAdmissionKeepsCustomers(world, members, upstream, request, utilization);
    case Remove(at) =>
      SeatsWithout(members, at);
      CustomersWithout(SeatsOf(members), at);
    case Observe(at, utilization) => ObservationKeepsCustomers(members, at, utilization);
  }

  /** Runs that admit only customer ids unchanged by a second normalisation keep all
      customer ids distinct, so the portfolio is never blocked by its own entries. */
  lemma {:induction false} StableRunsStayClean(world: World, events: seq<Event>)
    requires ReadsWholePortfolio(world.policy) && ValidRun(world, [], events) && StableAdmissions(events)
    ensures Clean(SeatsOf(After([], events)))
  {
    EveryPortfolioIsSane(world, events);
    if events != [] {
      var before, event := events[..|events| - 1], events[|events| - 1];
      StableRunsStayClean(world, before);
      EveryPortfolioIsSane(world, before);
      StepKeepsCustomers(world, After([], before), event);
    }
  }

  /** Right after an admission, another request for the same customer is recognised as
      such exactly when the customer id survives its second normalisation. */
  lemma {:induction false} ReadmissionIsSeenIff(
    world: World, members: seq<RawTenant>, upstream: Upstream, request: Request, utilization: PerQuota<Raw>)
    requires |members| <= READ_LIMIT && Percentages(utilization)
    requires Assess(InputsAt(world, members, upstream, request)).state == Reviewable
    ensures var entries := SeatsOf(members + [Stored(AskOf(request), utilization)]);
            (exists i | 0 <= i < |entries| ::
               entries[i].Some? && entries[i].value.customer == Customer(request.customer)) <==>
            StableCustomer(request.customer)
  {
    var seat := Admitted(world, members, upstream, request, utilization);
    LastIsOnlyOne(SeatsOf(members), seat, Customer(request.customer));
  }

  lemma {:induction false} LastIsOnlyOne(entries: seq<Option<Seat>>, seat: Seat, customer: string)
    requires forall i | 0 <= i < |entries| :: entries[i].Some? && entries[i].value.customer != customer
    ensures var longer := entries + [Some(seat)];
            (exists i | 0 <= i < |longer| :: longer[i].Some? && longer[i].value.customer == customer) <==>
            seat.customer == customer
  {
    var longer := entries + [Some(seat)];
    assert longer[|entries|] == Some(seat);
  }

  /** Such ids exist: 119 letters, a space and one letter more. */
  lemma {:induction false} AnUnstableCustomer()
    ensures var letters := seq(119, _ => 'x'); !StableCustomer(letters + " y")
  {
    var letters := seq(119, _ => 'x');
    var id := letters + " y";
    assert forall i | 0 <= i < 119 :: id[i] == 'x';
    assert id[119] == ' ' && id[120] == 'y' && |id| == 121;
    assert Spaced(id);
    SpacedIsNormal(id);
    assert DropNul(id) == id;
    TextIdempotent(id, 120);
  }

  // ------------------------------------------------------------- past the 500th

  /** Portfolios whose first 500 tenants are the same get the same verdict. */
  lemma {:induction false} ReadPartDecides(
    world: World, a: seq<RawTenant>, b: seq<RawTenant>, upstream: Upstream, request: Request)
    requires ReadPart(a) == ReadPart(b)
    ensures Assess(InputsAt(world, a, upstream, request)).state == Assess(InputsAt(world, b, upstream, request)).state
  {
    var one, two := InputsAt(world, a, upstream, request), InputsAt(world, b, upstream, request);
    assert Entries(one.portfolio) == Entries(two.portfolio);
    assert BooksFor(one) == BooksFor(two);
    assert FaultsOf(one, BooksFor(one)) == FaultsOf(two, BooksFor(two));
  }

  /** The gate never looks past the 500th tenant. */
  lemma {:induction false} TailIsIgnored(
    world: World, members: seq<RawTenant>, tail: seq<RawTenant>, upstream: Upstream, request: Request)
    requires |members| >= READ_LIMIT
    ensures Assess(InputsAt(world, members + tail, upstream, request)).state
         == Assess(InputsAt(world, members, upstream, request)).state
  {
    assert ReadPart(members + tail) == ReadPart(members);
    ReadPartDecides(world, members + tail, members, upstream, request);
  }

  function Copies<T>(item: T, n: nat): seq<T> {
    if n == 0 then [] else Copies(item, n - 1) + [item]
  }

  lemma {:induction false} OneMoreCopy<T>(items: seq<T>, item: T, n: nat)
    ensures (items + Copies(item, n)) + [item] == items + Copies(item, n + 1)
  {
  }

  /** So once 500 tenants are in and a request is still reviewable, that same request can
      be admitted any number of times: the run condition `ReadsWholePortfolio` is needed. */
  lemma {:induction false} SameRequestForever(
    world: World, members: seq<RawTenant>, upstream: Upstream, request: Request, utilization: PerQuota<Raw>, n: nat)
    requires |members| >= READ_LIMIT
    requires Enabled(world, members, Admit(upstream, request, utilization))
    ensures Enabled(world, members + Copies(Stored(AskOf(request), utilization), n),
                    Admit(upstream, request, utilization))
    ensures Applied(members + Copies(Stored(AskOf(request), utilization), n), Admit(upstream, request, utilization))
         == members + Copies(Stored(AskOf(request), utilization), n + 1)
  {
    var raw := Stored(AskOf(request), utilization);
    TailIsIgnored(world, members, Copies(raw, n), upstream, request);
    OneMoreCopy(members, raw, n);
  }

  /** And the quotas of the copies then add up past any limit. */
  lemma {:induction false} CopiesAddUp(entries: seq<Option<Seat>>, entry: Option<Seat>, n: nat, q: Quota)
    ensures Total(entries + Copies(entry, n), q) == Total(entries, q) + n * Amount(entry, q)
  {
    if n == 0 {
      assert entries + Copies(entry, 0) == entries;
    } else {
      CopiesAddUp(entries, entry, n - 1, q);
      OneMoreCopy(entries, entry, n - 1);
      TotalSnoc(entries + Copies(entry, n - 1), entry, q);
      assert (n - 1) * Amount(entry, q) + Amount(entry, q) == n * Amount(entry, q);
    }
  }
}
