/** The read-only projection of an admission verdict, and its agreement with the gate. */
module AdmissionView {
  import opened Wrappers
  import opened Texts
  import opened AdmissionData
  import opened Portfolio
  import opened Admission
  import opened AdmissionLaws

  datatype Decision = AdmissionCandidate | CapacityReview | IsolationReview | Refused

  /** One entry of `projected_portfolio`; the numbers may be anything. */
  datatype RowQuota = RowQuota(requested: int, projected: int, limit: int, reserve: Raw, share: Raw)

  /** The verdict as a dictionary: unknown states and decisions are `None`, and
      `unsafe` names the authority fields that are not false. */
  datatype Row = Row(
    schemaKnown: bool, state: Option<State>, decision: Option<Decision>, hasBlockers: bool, ownerApproval: bool,
    evidencePresent: bool, unsafe: seq<string>, tenantId: string, package: string,
    projected: PerQuota<Option<RowQuota>>, active: nat, capacityReasons: nat, isolationReasons: nat)

  datatype ViewFault =
    | TrustedScopeBad | SchemaBad | StateNotPresentable | DecisionBad | HasBlockers | OwnerBoundaryMissing
    | EvidenceRequired | UnsafeField(name: string) | TenantRequired | PackageMissing
    | QuotaMissing(q: Quota) | ReserveBad(q: Quota) | ShareBad(q: Quota)

  datatype QuotaView = QuotaView(requested: int, projected: int, limit: int, reserve: real, share: real)

  datatype View =
    | NotShown(faults: seq<ViewFault>)
    | Ready(state: State, decision: Decision, tenantId: string, package: string, active: nat,
            quotas: PerQuota<Option<QuotaView>>, minReserve: real, maxShare: real,
            capacityReasons: nat, isolationReasons: nat)

  /** `isinstance(value, (int, float)) and not isinstance(value, bool)`. */
  function Plain(raw: Raw): Option<real> {
    match raw case Integer(n) => Some(n as real) case Decimal(r) => Some(r) case _ => None
  }

  function AsUnsafe(name: string): ViewFault { UnsafeField(name) }

  function HeadFaults(row: Row, trusted: Scope): seq<ViewFault> {
    When(!Complete(Trim(trusted)), TrustedScopeBad) + When(!row.schemaKnown, SchemaBad)
    + When(row.state.None? || row.state.value == Blocked, StateNotPresentable)
    + When(row.decision.None? || row.decision.value == Refused, DecisionBad) + When(row.hasBlockers, HasBlockers)
    + When(!row.ownerApproval, OwnerBoundaryMissing) + When(!row.evidencePresent, EvidenceRequired)
    + Map(AsUnsafe, row.unsafe) + When(Text(row.tenantId, 80) == "", TenantRequired)
    + When(Text(row.package, 40) == "", PackageMissing)
  }

  predicate Shown(source: Option<RowQuota>) {
    source.Some? && Plain(source.value.reserve).Some? && Plain(source.value.share).Some?
  }

  function ViewOf(source: Option<RowQuota>): Option<QuotaView> {
    if !Shown(source) then None
    else
      var s := source.value;
      Some(QuotaView(s.requested, s.projected, s.limit, Round2(Plain(s.reserve).value), Round2(Plain(s.share).value)))
  }

  function QuotaFault(source: Option<RowQuota>, q: Quota): seq<ViewFault> {
    if source.None? then [QuotaMissing(q)]
    else if Plain(source.value.reserve).None? then [ReserveBad(q)]
    else if Plain(source.value.share).None? then [ShareBad(q)]
    else []
  }

  ghost predicate Presentable(row: Row, trusted: Scope) {
    && Complete(Trim(trusted)) && row.schemaKnown
    && row.state.Some? && row.state.value != Blocked && row.decision.Some? && row.decision.value != Refused
    && !row.hasBlockers && row.ownerApproval && row.evidencePresent && row.unsafe == []
    && Text(row.tenantId, 80) != "" && Text(row.package, 40) != ""
    && forall q :: Shown(row.projected.At(q))
  }

  function Least(values: seq<real>): (least: real)
    requires values != []
    ensures exists i | 0 <= i < |values| :: values[i] == least
    ensures forall i | 0 <= i < |values| :: least <= values[i]
  {
    if |values| == 1 then values[0]
    else
      var before := Least(values[..|values| - 1]);
      assert forall i | 0 <= i < |values| - 1 :: values[i] == values[..|values| - 1][i];
      if values[|values| - 1] < before then values[|values| - 1] else before
  }

  function Greatest(values: seq<real>): (greatest: real)
    requires values != []
    ensures exists i | 0 <= i < |values| :: values[i] == greatest
    ensures forall i | 0 <= i < |values| :: values[i] <= greatest
  {
    if |values| == 1 then values[0]
    else
      var before := Greatest(values[..|values| - 1]);
      assert forall i | 0 <= i < |values| - 1 :: values[i] == values[..|values| - 1][i];
      if values[|values| - 1] > before then values[|values| - 1] else before
  }

  /** The numbers of one source entry, in the lists that the loop fills. */
  predicate Listed(source: Option<RowQuota>, reserve: real, share: real) {
    Shown(source) && Plain(source.value.reserve) == Some(reserve) && Plain(source.value.share) == Some(share)
  }

  /** `least` is the least reserve shown and `greatest` the greatest share shown. */
  ghost predicate Spans(quotas: PerQuota<Option<QuotaView>>, least: real, greatest: real) {
    && (forall q :: quotas.At(q).Some? && least <= quotas.At(q).value.reserve && quotas.At(q).value.share <= greatest)
    && (exists q :: quotas.At(q).Some? && quotas.At(q).value.reserve == least)
    && (exists q :: quotas.At(q).Some? && quotas.At(q).value.share == greatest)
  }

  /** The loop over the projected quotas. */
  method ReadQuotas(projected: PerQuota<Option<RowQuota>>)
    returns (quotas: PerQuota<Option<QuotaView>>, reserves: seq<real>, shares: seq<real>, faults: seq<ViewFault>)
    ensures forall q :: quotas.At(q) == ViewOf(projected.At(q))
    ensures faults == [] <==> forall q :: Shown(projected.At(q))
    ensures faults == [] ==> |reserves| == |shares| == 4
    ensures faults == [] ==> forall q :: Listed(projected.At(q), reserves[IndexOf(q)], shares[IndexOf(q)])
  {
    quotas, reserves, shares, faults := Everywhere(None), [], [], [];
    for k := 0 to 4
      invariant forall j: nat | j < 4 ::
                  quotas.At(QuotaAt(j)) == if j < k then ViewOf(projected.At(QuotaAt(j))) else None
      invariant faults == [] <==> forall j: nat | j < k :: Shown(projected.At(QuotaAt(j)))
      invariant faults == [] ==> |reserves| == |shares| == k
      invariant faults == [] ==> forall j: nat | j < k :: Listed(projected.At(QuotaAt(j)), reserves[j], shares[j])
    {
      var q := QuotaAt(k);
      var source := projected.At(q);
      faults := faults + QuotaFault(source, q);
      if Shown(source) {
        reserves, shares := reserves + [Plain(source.value.reserve).value], shares + [Plain(source.value.share).value];
        quotas := quotas.With(q, ViewOf(source));
      }
    }
    forall q
      ensures quotas.At(q) == ViewOf(projected.At(q))
      ensures faults == [] ==> Shown(projected.At(q))
    {
      assert QuotaAt(IndexOf(q)) == q;
    }
  }

  /** `build_multi_company_admission_read_model`. */
  method BuildView(row: Row, trusted: Scope) returns (view: View)
    ensures view.Ready? <==> Presentable(row, trusted)
    ensures view.Ready? ==>
              && Some(view.state) == row.state && Some(view.decision) == row.decision && view.active == row.active
              && view.capacityReasons == row.capacityReasons && view.isolationReasons == row.isolationReasons
              && view.tenantId == Text(row.tenantId, 80) && view.package == Text(row.package, 40)
    ensures view.Ready? ==> forall q :: view.quotas.At(q) == ViewOf(row.projected.At(q))
    ensures view.Ready? ==> Spans(view.quotas, view.minReserve, view.maxShare)
  {
    var quotas, reserves, shares, quotaFaults := ReadQuotas(row.projected);
    var faults := HeadFaults(row, trusted) + quotaFaults;
    HeadFaultsIff(row, trusted);
    if faults != [] {
      view := NotShown(Unique(faults));
    } else {
      Extremes(row.projected, quotas, reserves, shares);
      view := Ready(row.state.value, row.decision.value, Text(row.tenantId, 80), Text(row.package, 40), row.active,
                    quotas, Round2(Least(reserves)), Round2(Greatest(shares)),
                    row.capacityReasons, row.isolationReasons);
    }
  }

  lemma {:induction false} HeadFaultsIff(row: Row, trusted: Scope)
    ensures HeadFaults(row, trusted) == [] <==>
            && Complete(Trim(trusted)) && row.schemaKnown
            && row.state.Some? && row.state.value != Blocked && row.decision.Some? && row.decision.value != Refused
            && !row.hasBlockers && row.ownerApproval && row.evidencePresent && row.unsafe == []
            && Text(row.tenantId, 80) != "" && Text(row.package, 40) != ""
  {
  }

  /** Rounding the least reserve is the least of the rounded ones, and so for shares. */
  lemma {:induction false} Extremes(
    projected: PerQuota<Option<RowQuota>>, quotas: PerQuota<Option<QuotaView>>, reserves: seq<real>, shares: seq<real>)
    requires |reserves| == |shares| == 4
    requires forall q :: Listed(projected.At(q), reserves[IndexOf(q)], shares[IndexOf(q)])
    requires forall q :: quotas.At(q) == ViewOf(projected.At(q))
    ensures Spans(quotas, Round2(Least(reserves)), Round2(Greatest(shares)))
  {
    forall q
      ensures quotas.At(q).Some?
      ensures quotas.At(q).value.reserve == Round2(reserves[IndexOf(q)])
      ensures quotas.At(q).value.share == Round2(shares[IndexOf(q)])
      ensures Round2(Least(reserves)) <= quotas.At(q).value.reserve
      ensures quotas.At(q).value.share <= Round2(Greatest(shares))
    {
      assert Listed(projected.At(q), reserves[IndexOf(q)], shares[IndexOf(q)]);
      RoundIsMonotone(Least(reserves), reserves[IndexOf(q)]);
      RoundIsMonotone(shares[IndexOf(q)], Greatest(shares));
    }
    var i :| 0 <= i < 4 && reserves[i] == Least(reserves);
    var j :| 0 <= j < 4 && shares[j] == Greatest(shares);
    assert IndexOf(QuotaAt(i)) == i && IndexOf(QuotaAt(j)) == j;
    assert quotas.At(QuotaAt(i)).value.reserve == Round2(Least(reserves));
    assert quotas.At(QuotaAt(j)).value.share == Round2(Greatest(shares));
  }

  // ------------------------------------------------------ agreement with the gate

  function DecisionFor(state: State): Decision {
    match state
    case Blocked => Refused
    case IsolationHold => IsolationReview
    case CapacityHold => CapacityReview
    case Reviewable => AdmissionCandidate
  }

  function PublishedQuota(projection: Option<Projection>): Option<RowQuota> {
    if projection.None? then None
    else
      var p := projection.value;
      Some(RowQuota(p.requested, p.projected, p.limit, Decimal(p.reserve), Decimal(p.share)))
  }

  /** The dictionary that the gate returns for a verdict. */
  function Published(v: Verdict): Row {
    Row(true, Some(v.state), Some(DecisionFor(v.state)), v.blockers != [], true, true, [], v.tenantId, v.package,
        Each(PublishedQuota, v.projected), v.active, |v.capacity|, |v.isolation|)
  }

  lemma {:induction false} PublishedNames(request: Request)
    requires IsTenantId(AskOf(request).tenantId) && AskOf(request).package != ""
    ensures Text(AskOf(request).tenantId, 80) != "" && Text(AskOf(request).package, 40) != ""
  {
    StoredTenantId(AskOf(request).tenantId);
    StoredPackage(request.package);
  }

  lemma {:induction false} ProjectionsShown(terms: Terms, ask: Ask, totals: PerQuota<int>)
    requires AllSome(terms.limits) && AllSome(ask.quotas)
    requires forall r :: terms.limits.At(r).Some? ==> terms.limits.At(r).value > 0
    ensures forall q :: Shown(Each(PublishedQuota, Projections(terms, ask, totals)).At(q))
  {
    forall q
      ensures Shown(Each(PublishedQuota, Projections(terms, ask, totals)).At(q))
    {
      assert Each(PublishedQuota, Projections(terms, ask, totals)).At(q)
          == PublishedQuota(ProjectionOf(terms, ask, totals, q));
    }
  }

  lemma {:induction false} ConcludedFields(
    ask: Ask, active: nat, projected: PerQuota<Option<Projection>>, faults: seq<Fault>, reasons: seq<Reason>)
    ensures var v := Conclude(ask, active, projected, faults, reasons);
            && (v.state != Blocked <==> faults == []) && (v.blockers == [] <==> faults == [])
            && v.tenantId == ask.tenantId && v.package == ask.package && v.projected == projected
  {
    UniqueEmpty(faults);
  }

  lemma {:induction false} VerdictFields(inputs: Inputs)
    ensures var v := Assess(inputs);
            && (v.state != Blocked <==> WellFormed(inputs)) && (v.blockers == [] <==> WellFormed(inputs))
            && v.tenantId == AskOf(inputs.request).tenantId && v.package == AskOf(inputs.request).package
    ensures forall r :: TermsOf(inputs.policy).limits.At(r).Some? ==> TermsOf(inputs.policy).limits.At(r).value > 0
    ensures Assess(inputs).projected
         == Projections(TermsOf(inputs.policy), AskOf(inputs.request), BooksFor(inputs).totals)
  {
    LimitsArePositive(inputs.policy);
    FaultsIff(inputs);
    var terms, ask, books := TermsOf(inputs.policy), AskOf(inputs.request), BooksFor(inputs);
    ConcludedFields(ask, |books.seats| + 1, Projections(terms, ask, books.totals), FaultsOf(inputs, books),
                    ReasonsOf(terms, ask, books));
  }

  lemma {:induction false} PresentableVerdict(v: Verdict, trusted: Scope)
    requires v.blockers == [] <==> v.state != Blocked
    ensures Presentable(Published(v), trusted) <==>
            && v.state != Blocked && Complete(Trim(trusted))
            && Text(v.tenantId, 80) != "" && Text(v.package, 40) != ""
            && forall q :: Shown(Each(PublishedQuota, v.projected).At(q))
  {
  }

  /** Under the same scope the projection is ready exactly when the gate did not block. */
  lemma {:induction false} PresentableIffNotBlocked(inputs: Inputs)
    ensures Presentable(Published(Assess(inputs)), inputs.trusted) <==> Assess(inputs).state != Blocked
  {
    VerdictFields(inputs);
    PresentableVerdict(Assess(inputs), inputs.trusted);
    if WellFormed(inputs) {
      PublishedNames(inputs.request);
      ProjectionsShown(TermsOf(inputs.policy), AskOf(inputs.request), BooksFor(inputs).totals);
    }
  }

  /** The projection shows the gate's own figures: rounding them again changes nothing. */
  lemma {:induction false} FiguresAreShownUnchanged(terms: Terms, ask: Ask, totals: PerQuota<int>, q: Quota)
    requires forall r :: terms.limits.At(r).Some? ==> terms.limits.At(r).value > 0
    ensures var p, shown := ProjectionOf(terms, ask, totals, q), ViewOf(PublishedQuota(ProjectionOf(terms, ask, totals, q)));
            && (shown.Some? <==> p.Some?)
            && (p.Some? ==>
                  && shown.value.reserve == p.value.reserve && shown.value.share == p.value.share
                  && shown.value.projected == p.value.projected && shown.value.limit == p.value.limit)
  {
    var p := ProjectionOf(terms, ask, totals, q);
    if p.Some? {
      var left := Ratio(p.value.limit - p.value.projected, p.value.limit);
      RoundTwice(if left > 0.0 then left else 0.0);
      RoundTwice(Ratio(p.value.requested, p.value.limit));
    }
  }
}
