/** When a request is let through: an independent reading of the gate, and what follows
    for requests that ask for less and for portfolios that hold fewer tenants. */
module AdmissionLaws {
  import opened Wrappers
  import opened AdmissionData
  import opened Portfolio
  import opened Admission

  ghost predicate AllSome(values: PerQuota<Option<int>>) {
    forall q :: values.At(q).Some?
  }

  /** A usable policy for the trusted scope. */
  ghost predicate GoodPolicy(policy: Policy, trusted: Scope) {
    var terms := TermsOf(policy);
    && policy.schemaKnown && policy.verified && Trim(policy.scope) == Trim(trusted)
    && terms.maxActive.Some? && AllSome(terms.limits) && StrictlyInside(terms.minReserve)
    && PositiveShare(terms.maxShare) && PositiveShare(terms.maxUtilization)
    && terms.maxChannels.Some? && terms.maxIntegrations.Some? && |Refs(policy.refs)| >= 4
  }

  ghost predicate GoodPortfolio(portfolio: PortfolioState, trusted: Scope) {
    && portfolio.schemaKnown && portfolio.verified && Trim(portfolio.scope) == Trim(trusted)
    && portfolio.tenants.Some? && |Refs(portfolio.refs)| >= 4 && Clean(Entries(portfolio))
  }

  ghost predicate GoodRequest(request: Request, trusted: Scope, upstream: Upstream) {
    var ask := AskOf(request);
    && Trim(request.scope) == Trim(trusted) && ask.customer != "" && IsTenantId(ask.tenantId) && ask.package != ""
    && ask.customer == Customer(upstream.customer) && ask.package == Package(upstream.package)
    && AllSome(ask.quotas) && ask.channels.Some? && ask.integrations.Some? && ask.peak.Some?
    && |Refs(request.refs)| >= 3
  }

  ghost predicate WellFormed(inputs: Inputs) {
    && Complete(Trim(inputs.trusted))
    && inputs.upstream.valueFaults == [] && inputs.upstream.conversionFaults == []
    && GoodPolicy(inputs.policy, inputs.trusted) && GoodPortfolio(inputs.portfolio, inputs.trusted)
    && GoodRequest(inputs.request, inputs.trusted, inputs.upstream)
  }

  /** One quota of a request fits beside what is in use. */
  predicate QuotaFits(limit: int, used: int, requested: int, minReserve: real, maxShare: real)
    requires limit > 0
  {
    && used + requested <= limit
    && Reserve(limit, used + requested) >= minReserve
    && Share(limit, requested) <= maxShare
  }

  /** The request fits beside the tenants of a clean portfolio. */
  ghost predicate Fits(terms: Terms, ask: Ask, entries: seq<Option<Seat>>)
    requires terms.maxActive.Some? && AllSome(terms.limits) && terms.minReserve.Some? && terms.maxShare.Some?
    requires terms.maxUtilization.Some? && terms.maxChannels.Some? && terms.maxIntegrations.Some?
    requires AllSome(ask.quotas) && ask.channels.Some? && ask.integrations.Some? && ask.peak.Some?
    requires forall r :: terms.limits.At(r).Some? ==> terms.limits.At(r).value > 0
    requires Clean(entries)
  {
    && (forall i | 0 <= i < |entries| ::
          entries[i].value.id != ask.tenantId && entries[i].value.customer != ask.customer)
    && Quiet(entries, terms.maxUtilization)
    && ask.channels.value <= terms.maxChannels.value && ask.integrations.value <= terms.maxIntegrations.value
    && ask.peak.value <= terms.maxUtilization.value
    && (forall q :: QuotaFits(terms.limits.At(q).value, Total(entries, q), ask.quotas.At(q).value,
                              terms.minReserve.value, terms.maxShare.value))
    && |entries| + 1 <= terms.maxActive.value
  }

  // ------------------------------------------------------------ blockers, by group

  lemma {:induction false} NoneMissing(values: PerQuota<Option<int>>, fault: Quota -> Fault)
    ensures Missing(values, fault, 4) == [] <==> AllSome(values)
  {
    assert Missing(values, fault, 4)
        == Missing(values, fault, 3) + When(values.At(QuotaAt(3)).None?, fault(QuotaAt(3)));
    assert Missing(values, fault, 2)
        == Missing(values, fault, 1) + When(values.At(QuotaAt(1)).None?, fault(QuotaAt(1)));
    if forall k: nat | k < 4 :: values.At(QuotaAt(k)).Some? {
      forall q ensures values.At(q).Some? { assert values.At(QuotaAt(IndexOf(q))).Some?; }
    }
  }

  lemma {:induction false} PolicyFaultsIff(policy: Policy, trusted: Scope)
    ensures PolicyFaults(policy, trusted) == [] <==> GoodPolicy(policy, trusted)
  {
    NoneMissing(TermsOf(policy).limits, LimitFault);
  }

  lemma {:induction false} PortfolioFaultsIff(portfolio: PortfolioState, trusted: Scope, cap: Option<real>)
    ensures PortfolioFaults(portfolio, trusted, BooksOf(Entries(portfolio), cap)) == [] <==>
            GoodPortfolio(portfolio, trusted)
  {
    NoBlockersIffClean(Entries(portfolio), cap);
  }

  lemma {:induction false} RequestFaultsIff(request: Request, trusted: Scope, upstream: Upstream)
    ensures RequestFaults(request, trusted, upstream) == [] <==> GoodRequest(request, trusted, upstream)
  {
    NoneMissing(AskOf(request).quotas, RequestedFault);
  }

  lemma {:induction false} NothingGathered(
    trusted: Scope, upstream: Upstream, policyFaults: seq<Fault>, portfolioFaults: seq<Fault>, requestFaults: seq<Fault>)
    ensures GatherFaults(trusted, upstream, policyFaults, portfolioFaults, requestFaults) == [] <==>
            && Complete(Trim(trusted)) && upstream.valueFaults == [] && upstream.conversionFaults == []
            && policyFaults == [] && portfolioFaults == [] && requestFaults == []
  {
  }

  lemma {:induction false} FaultsIff(inputs: Inputs)
    ensures FaultsOf(inputs, BooksFor(inputs)) == [] <==> WellFormed(inputs)
  {
    PolicyFaultsIff(inputs.policy, inputs.trusted);
    PortfolioFaultsIff(inputs.portfolio, inputs.trusted, TermsOf(inputs.policy).maxUtilization);
    RequestFaultsIff(inputs.request, inputs.trusted, inputs.upstream);
    NothingGathered(inputs.trusted, inputs.upstream, PolicyFaults(inputs.policy, inputs.trusted),
                    PortfolioFaults(inputs.portfolio, inputs.trusted, BooksFor(inputs)),
                    RequestFaults(inputs.request, inputs.trusted, inputs.upstream));
  }

  // ---------------------------------------------------------------- review reasons

  lemma {:induction false} NoReasonsOnQuota(terms: Terms, ask: Ask, totals: PerQuota<int>, q: Quota)
    requires forall r :: terms.limits.At(r).Some? ==> terms.limits.At(r).value > 0
    requires AllSome(terms.limits) && AllSome(ask.quotas) && terms.minReserve.Some? && terms.maxShare.Some?
    ensures ReasonsOn(terms, ProjectionOf(terms, ask, totals, q), q) == [] <==>
            QuotaFits(terms.limits.At(q).value, totals.At(q), ask.quotas.At(q).value,
                      terms.minReserve.value, terms.maxShare.value)
  {
  }

  lemma {:induction false} NoQuotaReasons(terms: Terms, ask: Ask, totals: PerQuota<int>)
    requires forall r :: terms.limits.At(r).Some? ==> terms.limits.At(r).value > 0
    ensures QuotaReasons(terms, ask, totals, 4) == [] <==>
            forall q :: ReasonsOn(terms, ProjectionOf(terms, ask, totals, q), q) == []
  {
    QuotaReasonsPrefix(terms, ask, totals);
    if forall k: nat | k < 4 :: ReasonsOn(terms, ProjectionOf(terms, ask, totals, QuotaAt(k)), QuotaAt(k)) == [] {
      forall q
        ensures ReasonsOn(terms, ProjectionOf(terms, ask, totals, q), q) == []
      {
        assert QuotaAt(IndexOf(q)) == q;
      }
    }
  }

  lemma {:induction false} QuotaReasonsPrefix(terms: Terms, ask: Ask, totals: PerQuota<int>)
    requires forall r :: terms.limits.At(r).Some? ==> terms.limits.At(r).value > 0
    ensures QuotaReasons(terms, ask, totals, 4) == [] <==>
            forall k: nat | k < 4 :: ReasonsOn(terms, ProjectionOf(terms, ask, totals, QuotaAt(k)), QuotaAt(k)) == []
  {
    assert QuotaReasons(terms, ask, totals, 4)
        == QuotaReasons(terms, ask, totals, 3)
           + ReasonsOn(terms, ProjectionOf(terms, ask, totals, QuotaAt(3)), QuotaAt(3));
    assert QuotaReasons(terms, ask, totals, 2)
        == QuotaReasons(terms, ask, totals, 1)
           + ReasonsOn(terms, ProjectionOf(terms, ask, totals, QuotaAt(1)), QuotaAt(1));
  }

  lemma {:induction false} NotTaken(seats: seq<Seat>, entries: seq<Option<Seat>>, ask: Ask)
    requires |seats| == |entries| && forall i | 0 <= i < |entries| :: entries[i] == Some(seats[i])
    ensures IdentityReasons(ask, seats) == [] <==>
            forall i | 0 <= i < |entries| ::
              entries[i].value.id != ask.tenantId && entries[i].value.customer != ask.customer
  {
    if forall i | 0 <= i < |entries| ::
        entries[i].value.id != ask.tenantId && entries[i].value.customer != ask.customer {
      assert forall i | 0 <= i < |seats| :: entries[i].value == seats[i];
    } else {
      var i :| 0 <= i < |entries|
            && (entries[i].value.id == ask.tenantId || entries[i].value.customer == ask.customer);
      assert seats[i] == entries[i].value;
    }
  }

  lemma {:induction false} UniqueEmpty<T(!new)>(items: seq<T>)
    ensures Unique(items) == [] <==> items == []
  {
    if items != [] { assert items[0] in Unique(items); }
  }

  lemma {:induction false} NoReasonsIff(terms: Terms, ask: Ask, entries: seq<Option<Seat>>)
    requires terms.maxActive.Some? && AllSome(terms.limits) && terms.minReserve.Some? && terms.maxShare.Some?
    requires terms.maxUtilization.Some? && terms.maxChannels.Some? && terms.maxIntegrations.Some?
    requires AllSome(ask.quotas) && ask.channels.Some? && ask.integrations.Some? && ask.peak.Some?
    requires forall r :: terms.limits.At(r).Some? ==> terms.limits.At(r).value > 0
    requires Clean(entries)
    ensures ReasonsOf(terms, ask, BooksOf(entries, terms.maxUtilization)) == [] <==> Fits(terms, ask, entries)
  {
    var books := BooksOf(entries, terms.maxUtilization);
    NoBlockersIffClean(entries, terms.maxUtilization);
    NoisyIffNotQuiet(entries, terms.maxUtilization);
    UniqueEmpty(books.noisy);
    NotTaken(books.seats, entries, ask);
    NoQuotaReasons(terms, ask, books.totals);
    forall q
      ensures ReasonsOn(terms, ProjectionOf(terms, ask, books.totals, q), q) == [] <==>
              QuotaFits(terms.limits.At(q).value, Total(entries, q), ask.quotas.At(q).value,
                        terms.minReserve.value, terms.maxShare.value)
    {
      NoReasonsOnQuota(terms, ask, books.totals, q);
    }
  }

  lemma {:induction false} ConcludeClassifies(
    ask: Ask, active: nat, projected: PerQuota<Option<Projection>>, faults: seq<Fault>, reasons: seq<Reason>)
    ensures var v := Conclude(ask, active, projected, faults, reasons);
            && (forall r :: r in v.reasons <==> (r in v.isolation) != (r in v.capacity))
            && (v.state == Reviewable <==> v.blockers == [] && v.reasons == [])
  {
    var v := Conclude(ask, active, projected, faults, reasons);
    assert forall r: Reason :: IsIsolation(r) != IsCapacity(r);
    if v.reasons == [] {
      UniqueEmpty(reasons);
    } else {
      var r := v.reasons[0];
      assert r in v.reasons && r in reasons;
      assert r in v.isolation || r in v.capacity;
    }
  }

  /** Every reason falls in exactly one of the two hold classes, so a verdict without
      blockers is reviewable exactly when it carries no reason at all. */
  lemma {:induction false} ReasonsAreClassified(inputs: Inputs)
    ensures var v := Assess(inputs);
            forall r :: r in v.reasons <==> (r in v.isolation) != (r in v.capacity)
    ensures var v := Assess(inputs);
            v.state == Reviewable <==> v.blockers == [] && v.reasons == []
  {
    LimitsArePositive(inputs.policy);
    var terms, ask, books := TermsOf(inputs.policy), AskOf(inputs.request), BooksFor(inputs);
    ConcludeClassifies(ask, |books.seats| + 1, Projections(terms, ask, books.totals), FaultsOf(inputs, books),
                       ReasonsOf(terms, ask, books));
  }

  /** The gate lets a request through exactly when all inputs are well formed and the
      request fits. */
  lemma {:induction false} ReviewableIff(inputs: Inputs)
    ensures Assess(inputs).state == Reviewable <==>
            && WellFormed(inputs)
            && (forall r :: TermsOf(inputs.policy).limits.At(r).Some? ==> TermsOf(inputs.policy).limits.At(r).value > 0)
            && Fits(TermsOf(inputs.policy), AskOf(inputs.request), Entries(inputs.portfolio))
  {
    LimitsArePositive(inputs.policy);
    ReasonsAreClassified(inputs);
    FaultsIff(inputs);
    UniqueEmpty(FaultsOf(inputs, BooksFor(inputs)));
    if WellFormed(inputs) {
      var terms, ask := TermsOf(inputs.policy), AskOf(inputs.request);
      NoReasonsIff(terms, ask, Entries(inputs.portfolio));
      UniqueEmpty(ReasonsOf(terms, ask, BooksFor(inputs)));
    }
  }
}
