/** The multi-company admission gate: what it blocks, what it sends to review, and the
    independent reading of a request that it lets through. */
module Admission {
  import opened Wrappers
  import opened AdmissionData
  import opened Portfolio

  datatype Policy = Policy(
    schemaKnown: bool, verified: bool, scope: Scope, maxActive: Raw, limits: PerQuota<Raw>, minReserve: Raw,
    maxShare: Raw, maxUtilization: Raw, maxChannels: Raw, maxIntegrations: Raw, refs: seq<string>)

  /** `tenants` is `None` when `active_tenants` is not a list. */
  datatype PortfolioState = PortfolioState(
    schemaKnown: bool, verified: bool, scope: Scope, tenants: Option<seq<RawTenant>>, refs: seq<string>)

  datatype Request = Request(
    scope: Scope, customer: string, tenantId: string, package: string, quotas: PerQuota<Raw>, channels: Raw,
    integrations: Raw, peak: Raw, refs: seq<string>)

  /** The verdicts of the two preceding gates and the names that the conversion proposes. */
  datatype Upstream = Upstream(valueFaults: seq<string>, conversionFaults: seq<string>, customer: string, package: string)

  datatype Inputs = Inputs(
    trusted: Scope, upstream: Upstream, request: Request, portfolio: PortfolioState, policy: Policy)

  /** The policy once read; an unreadable number is `None`. */
  datatype Terms = Terms(
    maxActive: Option<int>, limits: PerQuota<Option<int>>, minReserve: Option<real>, maxShare: Option<real>,
    maxUtilization: Option<real>, maxChannels: Option<int>, maxIntegrations: Option<int>)

  datatype Fault =
    | TrustedScopeInvalid | ValueFault(name: string) | ConversionFault(name: string)
    | PolicySchemaInvalid | PolicyNotVerified | PolicyScopeMismatch | MaxActiveInvalid | LimitInvalid(q: Quota)
    | MinReserveInvalid | MaxShareInvalid | MaxUtilizationInvalid | MaxChannelsInvalid | MaxIntegrationsInvalid
    | PolicyEvidenceInsufficient
    | PortfolioSchemaInvalid | PortfolioNotVerified | PortfolioScopeMismatch | TenantsInvalid
    | EntryFault(blocker: Blocker) | PortfolioEvidenceInsufficient
    | RequestScopeMismatch | CustomerRequired | TenantIdInvalid | PackageRequired
    | CustomerMismatch | PackageMismatch | RequestedQuotaInvalid(q: Quota)
    | ChannelsInvalid | IntegrationsInvalid | PeakInvalid | RequestEvidenceInsufficient

  datatype Reason =
    | Noisy(neighbour: NoisyNeighbour) | TenantAlreadyExists | CustomerAlreadyAdmitted
    | TooManyChannels | TooManyIntegrations | PeakTooHigh
    | QuotaExceeded(q: Quota) | ReserveBelowPolicy(q: Quota) | ConcentrationExceeded(q: Quota) | ActiveLimitExceeded

  datatype State = Blocked | IsolationHold | CapacityHold | Reviewable

  datatype Projection = Projection(current: int, requested: int, projected: int, limit: int, reserve: real, share: real)

  datatype Verdict = Verdict(
    state: State, customer: string, tenantId: string, package: string, quotas: PerQuota<Option<int>>, active: nat,
    projected: PerQuota<Option<Projection>>, reasons: seq<Reason>, isolation: seq<Reason>, capacity: seq<Reason>,
    blockers: seq<Fault>)

  predicate IsIsolation(r: Reason) { r.TenantAlreadyExists? || r.CustomerAlreadyAdmitted? }

  predicate IsCapacity(r: Reason) {
    || r.QuotaExceeded? || r.ReserveBelowPolicy? || r.ConcentrationExceeded? || r.Noisy?
    || r.ActiveLimitExceeded? || r.TooManyChannels? || r.TooManyIntegrations? || r.PeakTooHigh?
  }

  /** `list(dict.fromkeys(items))`. */
  function Unique<T(==,!new)>(items: seq<T>): (unique: seq<T>)
    ensures forall x :: x in unique <==> x in items
    ensures forall i, j | 0 <= i < j < |unique| :: unique[i] != unique[j]
  {
    if items == [] then []
    else
      var before, last := Unique(items[..|items| - 1]), items[|items| - 1];
      assert items == items[..|items| - 1] + [last];
      if last in before then before else before + [last]
  }

  function Select<T(!new)>(items: seq<T>, keep: T -> bool): (kept: seq<T>)
    ensures forall x :: x in kept <==> x in items && keep(x)
  {
    if items == [] then []
    else
      assert items == items[..|items| - 1] + [items[|items| - 1]];
      Select(items[..|items| - 1], keep) + When(keep(items[|items| - 1]), items[|items| - 1])
  }

  function Map<T, U>(f: T -> U, items: seq<T>): (out: seq<U>)
    ensures |out| == |items|
    ensures forall i | 0 <= i < |items| :: out[i] == f(items[i])
  {
    if items == [] then [] else Map(f, items[..|items| - 1]) + [f(items[|items| - 1])]
  }

  // ------------------------------------------------------------------- the policy

  function TermsOf(policy: Policy): Terms {
    Terms(PositiveInt(policy.maxActive), Each(PositiveInt, policy.limits), Percent(policy.minReserve),
          Percent(policy.maxShare), Percent(policy.maxUtilization), PositiveInt(policy.maxChannels),
          PositiveInt(policy.maxIntegrations))
  }

  function LimitFault(q: Quota): Fault { LimitInvalid(q) }

  function RequestedFault(q: Quota): Fault { RequestedQuotaInvalid(q) }

  /** One blocker for each of the first `k` quotas without a usable number. */
  function Missing(values: PerQuota<Option<int>>, fault: Quota -> Fault, k: nat): seq<Fault>
    requires k <= 4
  {
    if k == 0 then []
    else Missing(values, fault, k - 1) + When(values.At(QuotaAt(k - 1)).None?, fault(QuotaAt(k - 1)))
  }

  predicate StrictlyInside(p: Option<real>) { p.Some? && 0.0 < p.value < 100.0 }

  predicate PositiveShare(p: Option<real>) { p.Some? && 0.0 < p.value <= 100.0 }

  function PolicyFaults(policy: Policy, trusted: Scope): seq<Fault> {
    var terms := TermsOf(policy);
    When(!policy.schemaKnown, PolicySchemaInvalid) + When(!policy.verified, PolicyNotVerified)
    + When(Trim(policy.scope) != Trim(trusted), PolicyScopeMismatch)
    + When(terms.maxActive.None?, MaxActiveInvalid) + Missing(terms.limits, LimitFault, 4)
    + When(!StrictlyInside(terms.minReserve), MinReserveInvalid)
    + When(!PositiveShare(terms.maxShare), MaxShareInvalid)
    + When(!PositiveShare(terms.maxUtilization), MaxUtilizationInvalid)
    + When(terms.maxChannels.None?, MaxChannelsInvalid) + When(terms.maxIntegrations.None?, MaxIntegrationsInvalid)
    + When(|Refs(policy.refs)| < 4, PolicyEvidenceInsufficient)
  }

  // ---------------------------------------------------------------- the portfolio

  function Entries(portfolio: PortfolioState): seq<Option<Seat>> {
    SeatsOf(ReadPart(if portfolio.tenants.Some? then portfolio.tenants.value else []))
  }

  function AsFault(blocker: Blocker): Fault { EntryFault(blocker) }

  function PortfolioFaults(portfolio: PortfolioState, trusted: Scope, books: Books): seq<Fault> {
    When(!portfolio.schemaKnown, PortfolioSchemaInvalid) + When(!portfolio.verified, PortfolioNotVerified)
    + When(Trim(portfolio.scope) != Trim(trusted), PortfolioScopeMismatch)
    + When(portfolio.tenants.None?, TenantsInvalid) + Map(AsFault, books.blockers)
    + When(|Refs(portfolio.refs)| < 4, PortfolioEvidenceInsufficient)
  }

  // ------------------------------------------------------------------ the request

  /** The request once read. */
  datatype Ask = Ask(
    customer: string, tenantId: string, package: string, quotas: PerQuota<Option<int>>, channels: Option<int>,
    integrations: Option<int>, peak: Option<real>)

  function AskOf(request: Request): Ask {
    Ask(Customer(request.customer), TenantId(request.tenantId), Package(request.package),
        Each(PositiveInt, request.quotas), PositiveInt(request.channels), PositiveInt(request.integrations),
        Percent(request.peak))
  }

  function NameFaults(ask: Ask, upstream: Upstream): seq<Fault> {
    When(ask.customer == "", CustomerRequired) + When(!IsTenantId(ask.tenantId), TenantIdInvalid)
    + When(ask.package == "", PackageRequired)
    + When(ask.customer != Customer(upstream.customer), CustomerMismatch)
    + When(ask.package != Package(upstream.package), PackageMismatch)
  }

  function SizeFaults(ask: Ask): seq<Fault> {
    Missing(ask.quotas, RequestedFault, 4) + When(ask.channels.None?, ChannelsInvalid)
    + When(ask.integrations.None?, IntegrationsInvalid) + When(ask.peak.None?, PeakInvalid)
  }

  function RequestFaults(request: Request, trusted: Scope, upstream: Upstream): seq<Fault> {
    When(Trim(request.scope) != Trim(trusted), RequestScopeMismatch) + NameFaults(AskOf(request), upstream)
    + SizeFaults(AskOf(request)) + When(|Refs(request.refs)| < 3, RequestEvidenceInsufficient)
  }

  predicate TenantTaken(seats: seq<Seat>, id: string) { exists i | 0 <= i < |seats| :: seats[i].id == id }

  predicate CustomerTaken(seats: seq<Seat>, id: string) { exists i | 0 <= i < |seats| :: seats[i].customer == id }

  function IdentityReasons(ask: Ask, seats: seq<Seat>): seq<Reason> {
    When(TenantTaken(seats, ask.tenantId), TenantAlreadyExists)
    + When(CustomerTaken(seats, ask.customer), CustomerAlreadyAdmitted)
  }

  predicate Over(value: Option<int>, limit: Option<int>) {
    value.Some? && limit.Some? && value.value > limit.value
  }

  function SizeReasons(ask: Ask, terms: Terms): seq<Reason> {
    When(Over(ask.channels, terms.maxChannels), TooManyChannels)
    + When(Over(ask.integrations, terms.maxIntegrations), TooManyIntegrations)
    + When(ask.peak.Some? && terms.maxUtilization.Some? && ask.peak.value > terms.maxUtilization.value, PeakTooHigh)
  }

  function ProjectionOf(terms: Terms, ask: Ask, totals: PerQuota<int>, q: Quota): (p: Option<Projection>)
    requires forall r :: terms.limits.At(r).Some? ==> terms.limits.At(r).value > 0
  {
    var limit, requested, current := terms.limits.At(q), ask.quotas.At(q), totals.At(q);
    if limit.None? || requested.None? then None
    else
      var projected := current + requested.value;
      Some(Projection(current, requested.value, projected, limit.value, Reserve(limit.value, projected),
                      Share(limit.value, requested.value)))
  }

  function Projections(terms: Terms, ask: Ask, totals: PerQuota<int>): PerQuota<Option<Projection>>
    requires forall r :: terms.limits.At(r).Some? ==> terms.limits.At(r).value > 0
  {
    PerQuota(ProjectionOf(terms, ask, totals, CapacityUnits), ProjectionOf(terms, ask, totals, CallsPerCycle),
             ProjectionOf(terms, ask, totals, TokensPerCycle), ProjectionOf(terms, ask, totals, SupportTickets))
  }

  function ReasonsOn(terms: Terms, projection: Option<Projection>, q: Quota): seq<Reason> {
    if projection.None? then []
    else
      var p := projection.value;
      When(p.projected > p.limit, QuotaExceeded(q))
      + When(terms.minReserve.Some? && p.reserve < terms.minReserve.value, ReserveBelowPolicy(q))
      + When(terms.maxShare.Some? && p.share > terms.maxShare.value, ConcentrationExceeded(q))
  }

  function QuotaReasons(terms: Terms, ask: Ask, totals: PerQuota<int>, k: nat): seq<Reason>
    requires k <= 4
    requires forall r :: terms.limits.At(r).Some? ==> terms.limits.At(r).value > 0
  {
    if k == 0 then []
    else
      QuotaReasons(terms, ask, totals, k - 1)
      + ReasonsOn(terms, ProjectionOf(terms, ask, totals, QuotaAt(k - 1)), QuotaAt(k - 1))
  }

  function AsReason(neighbour: NoisyNeighbour): Reason { Noisy(neighbour) }

  lemma {:induction false} LimitsArePositive(policy: Policy)
    ensures forall r :: TermsOf(policy).limits.At(r).Some? ==> TermsOf(policy).limits.At(r).value > 0
  {
    forall r
      ensures TermsOf(policy).limits.At(r) == PositiveInt(policy.limits.At(r))
    {
    }
  }

  // ------------------------------------------------------------------ the verdict

  function AsValueFault(name: string): Fault { ValueFault(name) }

  function AsConversionFault(name: string): Fault { ConversionFault(name) }

  /** The groups of blockers in the order in which the gate collects them. */
  function GatherFaults(
    trusted: Scope, upstream: Upstream, policyFaults: seq<Fault>, portfolioFaults: seq<Fault>, requestFaults: seq<Fault>)
    : seq<Fault>
  {
    When(!Complete(Trim(trusted)), TrustedScopeInvalid)
    + Map(AsValueFault, upstream.valueFaults) + Map(AsConversionFault, upstream.conversionFaults)
    + policyFaults + portfolioFaults + requestFaults
  }

  function FaultsOf(inputs: Inputs, books: Books): seq<Fault> {
    GatherFaults(inputs.trusted, inputs.upstream, PolicyFaults(inputs.policy, inputs.trusted),
                 PortfolioFaults(inputs.portfolio, inputs.trusted, books),
                 RequestFaults(inputs.request, inputs.trusted, inputs.upstream))
  }

  /** The groups of review reasons in the order in which the gate collects them. */
  function GatherReasons(terms: Terms, ask: Ask, books: Books, quotaReasons: seq<Reason>): seq<Reason> {
    Map(AsReason, Unique(books.noisy)) + IdentityReasons(ask, books.seats) + SizeReasons(ask, terms) + quotaReasons
    + When(terms.maxActive.Some? && |books.seats| + 1 > terms.maxActive.value, ActiveLimitExceeded)
  }

  function ReasonsOf(terms: Terms, ask: Ask, books: Books): seq<Reason>
    requires forall r :: terms.limits.At(r).Some? ==> terms.limits.At(r).value > 0
  {
    GatherReasons(terms, ask, books, QuotaReasons(terms, ask, books.totals, 4))
  }

  function StateFor(blockers: seq<Fault>, isolation: seq<Reason>, capacity: seq<Reason>): State {
    if blockers != [] then Blocked
    else if isolation != [] then IsolationHold
    else if capacity != [] then CapacityHold
    else Reviewable
  }

  function Conclude(
    ask: Ask, active: nat, projected: PerQuota<Option<Projection>>, faults: seq<Fault>, reasons: seq<Reason>): Verdict
  {
    var blockers := Unique(faults);
    var isolation, capacity := Select(reasons, IsIsolation), Select(reasons, IsCapacity);
    Verdict(StateFor(blockers, isolation, capacity), ask.customer, ask.tenantId, ask.package, ask.quotas, active,
            projected, Unique(reasons), isolation, capacity, blockers)
  }

  function BooksFor(inputs: Inputs): Books {
    BooksOf(Entries(inputs.portfolio), TermsOf(inputs.policy).maxUtilization)
  }

  /** `evaluate_multi_company_admission` as one expression. */
  function Assess(inputs: Inputs): Verdict {
    LimitsArePositive(inputs.policy);
    var terms, ask, books := TermsOf(inputs.policy), AskOf(inputs.request), BooksFor(inputs);
    Conclude(ask, |books.seats| + 1, Projections(terms, ask, books.totals), FaultsOf(inputs, books),
             ReasonsOf(terms, ask, books))
  }

  // ------------------------------------------------------------------- the method

  /** Setting one quota after another, in their order, sets them all. */
  lemma {:induction false} OneMoreSet<T>(values: PerQuota<T>, all: PerQuota<T>, k: nat)
    requires k < 4 && forall j: nat | j < k :: values.At(QuotaAt(j)) == all.At(QuotaAt(j))
    ensures var values' := values.With(QuotaAt(k), all.At(QuotaAt(k)));
            && (forall j: nat | j <= k :: values'.At(QuotaAt(j)) == all.At(QuotaAt(j)))
            && (k == 3 ==> values' == all)
  {
    var values' := values.With(QuotaAt(k), all.At(QuotaAt(k)));
    if k == 3 {
      forall q ensures values'.At(q) == all.At(q) { assert QuotaAt(IndexOf(q)) == q; }
      SamePerQuota(values', all);
    }
  }

  /** The loop of `_validate_policy` over the portfolio limits. */
  method ReadLimits(limits: PerQuota<Raw>) returns (values: PerQuota<Option<int>>, faults: seq<Fault>)
    ensures values == Each(PositiveInt, limits) && faults == Missing(values, LimitFault, 4)
  {
    values, faults := Everywhere(None), [];
    ghost var all := Each(PositiveInt, limits);
    for k := 0 to 4
      invariant forall j: nat | j < k :: values.At(QuotaAt(j)) == all.At(QuotaAt(j))
      invariant k == 4 ==> values == all
      invariant faults == Missing(all, LimitFault, k)
    {
      var q := QuotaAt(k);
      var value := PositiveInt(limits.At(q));
      if value.None? {
        faults := faults + [LimitInvalid(q)];
      }
      OneMoreSet(values, all, k);
      values := values.With(q, value);
    }
  }

  /** The loop over the requested quotas. */
  method ReadRequested(quotas: PerQuota<Raw>) returns (values: PerQuota<Option<int>>, faults: seq<Fault>)
    ensures values == Each(PositiveInt, quotas) && faults == Missing(values, RequestedFault, 4)
  {
    values, faults := Everywhere(None), [];
    ghost var all := Each(PositiveInt, quotas);
    for k := 0 to 4
      invariant forall j: nat | j < k :: values.At(QuotaAt(j)) == all.At(QuotaAt(j))
      invariant k == 4 ==> values == all
      invariant faults == Missing(all, RequestedFault, k)
    {
      var q := QuotaAt(k);
      var value := PositiveInt(quotas.At(q));
      if value.None? {
        faults := faults + [RequestedQuotaInvalid(q)];
      }
      OneMoreSet(values, all, k);
      values := values.With(q, value);
    }
  }

  /** One turn of the projection loop. */
  method ProjectOne(terms: Terms, ask: Ask, totals: PerQuota<int>, q: Quota)
    returns (projection: Option<Projection>, reasons: seq<Reason>)
    requires forall r :: terms.limits.At(r).Some? ==> terms.limits.At(r).value > 0
    ensures projection == ProjectionOf(terms, ask, totals, q)
    ensures reasons == ReasonsOn(terms, projection, q)
  {
    projection, reasons := ProjectionOf(terms, ask, totals, q), [];
    if projection.Some? {
      var p := projection.value;
      if p.projected > p.limit { reasons := reasons + [QuotaExceeded(q)]; }
      if terms.minReserve.Some? && p.reserve < terms.minReserve.value { reasons := reasons + [ReserveBelowPolicy(q)]; }
      if terms.maxShare.Some? && p.share > terms.maxShare.value { reasons := reasons + [ConcentrationExceeded(q)]; }
    }
  }

  lemma {:induction false} ProjectionAt(terms: Terms, ask: Ask, totals: PerQuota<int>, q: Quota)
    requires forall r :: terms.limits.At(r).Some? ==> terms.limits.At(r).value > 0
    ensures Projections(terms, ask, totals).At(q) == ProjectionOf(terms, ask, totals, q)
  {
  }

  /** The loop that projects each quota and collects its reasons. */
  method Project(terms: Terms, ask: Ask, totals: PerQuota<int>)
    returns (projected: PerQuota<Option<Projection>>, reasons: seq<Reason>)
    requires forall r :: terms.limits.At(r).Some? ==> terms.limits.At(r).value > 0
    ensures projected == Projections(terms, ask, totals)
    ensures reasons == QuotaReasons(terms, ask, totals, 4)
  {
    projected, reasons := Everywhere(None), [];
    for k := 0 to 4
      invariant forall j: nat | j < k :: projected.At(QuotaAt(j)) == Projections(terms, ask, totals).At(QuotaAt(j))
      invariant k == 4 ==> projected == Projections(terms, ask, totals)
      invariant reasons == QuotaReasons(terms, ask, totals, k)
    {
      var q := QuotaAt(k);
      var projection, found := ProjectOne(terms, ask, totals, q);
      ProjectionAt(terms, ask, totals, q);
      OneMoreSet(projected, Projections(terms, ask, totals), k);
      projected := projected.With(q, projection);
      reasons := reasons + found;
    }
  }

  /** `_validate_policy`. */
  method CheckPolicy(policy: Policy, trusted: Scope) returns (terms: Terms, faults: seq<Fault>)
    ensures terms == TermsOf(policy) && faults == PolicyFaults(policy, trusted)
  {
    var limits, limitFaults := ReadLimits(policy.limits);
    terms := TermsOf(policy).(limits := limits);
    faults := When(!policy.schemaKnown, PolicySchemaInvalid) + When(!policy.verified, PolicyNotVerified)
      + When(Trim(policy.scope) != Trim(trusted), PolicyScopeMismatch)
      + When(terms.maxActive.None?, MaxActiveInvalid) + limitFaults
      + When(!StrictlyInside(terms.minReserve), MinReserveInvalid)
      + When(!PositiveShare(terms.maxShare), MaxShareInvalid)
      + When(!PositiveShare(terms.maxUtilization), MaxUtilizationInvalid)
      + When(terms.maxChannels.None?, MaxChannelsInvalid) + When(terms.maxIntegrations.None?, MaxIntegrationsInvalid)
      + When(|Refs(policy.refs)| < 4, PolicyEvidenceInsufficient);
  }

  method CheckRequest(request: Request, trusted: Scope, upstream: Upstream) returns (ask: Ask, faults: seq<Fault>)
    ensures ask == AskOf(request) && faults == RequestFaults(request, trusted, upstream)
  {
    var requested, quotaFaults := ReadRequested(request.quotas);
    ask := AskOf(request).(quotas := requested);
    var sizeFaults := quotaFaults + When(ask.channels.None?, ChannelsInvalid)
      + When(ask.integrations.None?, IntegrationsInvalid) + When(ask.peak.None?, PeakInvalid);
    faults := When(Trim(request.scope) != Trim(trusted), RequestScopeMismatch) + NameFaults(ask, upstream)
      + sizeFaults + When(|Refs(request.refs)| < 3, RequestEvidenceInsufficient);
  }

  /** Each reason is of exactly one kind, and a list is empty exactly when nothing is in it. */
  lemma {:induction false} EveryReasonHolds(faults: seq<Fault>, reasons: seq<Reason>)
    ensures forall r: Reason :: IsIsolation(r) != IsCapacity(r)
    ensures Unique(faults) == [] <==> faults == []
    ensures Select(reasons, IsIsolation) == [] <==> !exists r :: r in reasons && IsIsolation(r)
    ensures Select(reasons, IsCapacity) == [] <==> !exists r :: r in reasons && IsCapacity(r)
  {
    var isolation, capacity := Select(reasons, IsIsolation), Select(reasons, IsCapacity);
    if isolation != [] { assert isolation[0] in isolation; }
    if capacity != [] { assert capacity[0] in capacity; }
    if Unique(faults) != [] { assert Unique(faults)[0] in Unique(faults); }
    if faults != [] { assert faults[0] in Unique(faults); }
  }

  /** The classification of the reasons and the choice of the state. */
  method Judge(
    ask: Ask, active: nat, projected: PerQuota<Option<Projection>>, faults: seq<Fault>, reasons: seq<Reason>)
    returns (verdict: Verdict)
    ensures verdict == Conclude(ask, active, projected, faults, reasons)
    ensures verdict.state == Blocked <==> faults != []
    ensures verdict.state == Reviewable <==> faults == [] && reasons == []
    ensures verdict.state == IsolationHold <==> faults == [] && exists r :: r in reasons && IsIsolation(r)
    ensures verdict.state == CapacityHold <==> faults == [] && reasons != [] && forall r | r in reasons :: IsCapacity(r)
    ensures forall r :: r in reasons <==> r in verdict.isolation || r in verdict.capacity
    ensures forall f :: f in faults <==> f in verdict.blockers
  {
    EveryReasonHolds(faults, reasons);
    var isolation, capacity, blockers := Select(reasons, IsIsolation), Select(reasons, IsCapacity), Unique(faults);
    var state := Reviewable;
    if blockers != [] {
      state := Blocked;
    } else if isolation != [] {
      state := IsolationHold;
    } else if capacity != [] {
      state := CapacityHold;
    }
    verdict := Verdict(state, ask.customer, ask.tenantId, ask.package, ask.quotas, active, projected,
                       Unique(reasons), isolation, capacity, blockers);
  }

  method ReadPortfolio(portfolio: PortfolioState, trusted: Scope, cap: Option<real>)
    returns (books: Books, faults: seq<Fault>)
    ensures books == BooksOf(Entries(portfolio), cap) && faults == PortfolioFaults(portfolio, trusted, books)
  {
    books := NormalizePortfolio(if portfolio.tenants.Some? then portfolio.tenants.value else [], cap);
    faults := PortfolioFaults(portfolio, trusted, books);
  }

  /** Everything the gate reads and collects before it projects the quotas. */
  method Collect(inputs: Inputs) returns (terms: Terms, ask: Ask, books: Books, faults: seq<Fault>)
    ensures terms == TermsOf(inputs.policy) && ask == AskOf(inputs.request) && books == BooksFor(inputs)
    ensures faults == FaultsOf(inputs, books)
  {
    var policyFaults, portfolioFaults, requestFaults;
    terms, policyFaults := CheckPolicy(inputs.policy, inputs.trusted);
    books, portfolioFaults := ReadPortfolio(inputs.portfolio, inputs.trusted, terms.maxUtilization);
    ask, requestFaults := CheckRequest(inputs.request, inputs.trusted, inputs.upstream);
    faults := GatherFaults(inputs.trusted, inputs.upstream, policyFaults, portfolioFaults, requestFaults);
  }

  /** `evaluate_multi_company_admission`. */
  method Evaluate(inputs: Inputs) returns (verdict: Verdict)
    ensures verdict == Assess(inputs)
  {
    LimitsArePositive(inputs.policy);
    var terms, ask, books, faults := Collect(inputs);
    var projected, quotaReasons := Project(terms, ask, books.totals);
    verdict := Judge(ask, |books.seats| + 1, projected, faults, GatherReasons(terms, ask, books, quotaReasons));
  }
}
