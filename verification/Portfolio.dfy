/** The portfolio reader of the multi-company admission gate: one pass over the active
    tenants that checks identities, adds up quotas and reports noisy neighbours. */
module Portfolio {
  import opened Wrappers
  import opened AdmissionData

  const READ_LIMIT := 500

  /** One entry of `active_tenants`; texts that are not strings are empty. */
  datatype RawTenant =
    | NotMapping
    | Tenant(id: string, customer: string, package: string, quotas: PerQuota<Raw>, utilization: PerQuota<Raw>)

  /** The same entry once its fields are read; `named` says that the three identity
      fields have an acceptable shape. */
  datatype Seat = Seat(
    named: bool, id: string, customer: string, quotas: PerQuota<Option<int>>, utilization: PerQuota<Option<real>>)

  datatype Blocker =
    | ItemInvalid | IdentityInvalidOrDuplicate | QuotaInvalid(q: Quota) | UtilizationInvalid(q: Quota)

  datatype NoisyNeighbour = NoisyNeighbour(tenant: string, q: Quota)

  datatype Books = Books(
    seats: seq<Seat>, totals: PerQuota<int>, blockers: seq<Blocker>, noisy: seq<NoisyNeighbour>)

  const EMPTY_BOOKS := Books([], Everywhere(0), [], [])

  function Each<T, U>(read: T -> U, items: PerQuota<T>): PerQuota<U> {
    PerQuota(read(items.capacity), read(items.calls), read(items.tokens), read(items.tickets))
  }

  function SeatOf(raw: RawTenant): Option<Seat> {
    match raw
    case NotMapping => None
    case Tenant(id, customer, package, quotas, utilization) =>
      Some(Seat(
        IsTenantId(TenantId(id)) && Customer(customer) != "" && Package(package) != "",
        TenantId(id), Customer(customer), Each(PositiveInt, quotas), Each(Percent, utilization)))
  }

  function SeatsOf(raws: seq<RawTenant>): (seats: seq<Option<Seat>>)
    ensures |seats| == |raws|
    ensures forall i | 0 <= i < |raws| :: seats[i] == SeatOf(raws[i])
  {
    if raws == [] then [] else SeatsOf(raws[..|raws| - 1]) + [SeatOf(raws[|raws| - 1])]
  }

  function ReadPart(raws: seq<RawTenant>): seq<RawTenant> {
    if |raws| <= READ_LIMIT then raws else raws[..READ_LIMIT]
  }

  // --------------------------------------------------------- one tenant at a time

  function When<T>(condition: bool, item: T): seq<T> {
    if condition then [item] else []
  }

  predicate Known(seats: seq<Seat>, seat: Seat) {
    exists i | 0 <= i < |seats| :: seats[i].id == seat.id || seats[i].customer == seat.customer
  }

  function Added(base: PerQuota<int>, quotas: PerQuota<Option<int>>, k: nat): PerQuota<int>
    requires k <= 4
  {
    if k == 0 then base
    else
      var before, q := Added(base, quotas, k - 1), QuotaAt(k - 1);
      if quotas.At(q).Some? then before.With(q, before.At(q) + quotas.At(q).value) else before
  }

  function QuotaGaps(seat: Seat, k: nat): seq<Blocker>
    requires k <= 4
  {
    if k == 0 then []
    else QuotaGaps(seat, k - 1) + When(seat.quotas.At(QuotaAt(k - 1)).None?, QuotaInvalid(QuotaAt(k - 1)))
  }

  function UtilizationGaps(seat: Seat, k: nat): seq<Blocker>
    requires k <= 4
  {
    if k == 0 then []
    else
      UtilizationGaps(seat, k - 1) + When(seat.utilization.At(QuotaAt(k - 1)).None?, UtilizationInvalid(QuotaAt(k - 1)))
  }

  predicate TooBusy(seat: Seat, q: Quota, cap: Option<real>) {
    cap.Some? && seat.utilization.At(q).Some? && seat.utilization.At(q).value > cap.value
  }

  function Noise(seat: Seat, cap: Option<real>, k: nat): seq<NoisyNeighbour>
    requires k <= 4
  {
    if k == 0 then []
    else
      Noise(seat, cap, k - 1)
      + When(TooBusy(seat, QuotaAt(k - 1), cap), NoisyNeighbour(seat.id, QuotaAt(k - 1)))
  }

  function Enter(books: Books, entry: Option<Seat>, cap: Option<real>): Books {
    if entry.None? then books.(blockers := books.blockers + [ItemInvalid])
    else if !entry.value.named || Known(books.seats, entry.value) then
      books.(blockers := books.blockers + [IdentityInvalidOrDuplicate])
    else
      var seat := entry.value;
      Books(
        books.seats + [seat], Added(books.totals, seat.quotas, 4),
        books.blockers + QuotaGaps(seat, 4) + UtilizationGaps(seat, 4), books.noisy + Noise(seat, cap, 4))
  }

  function BooksOf(entries: seq<Option<Seat>>, cap: Option<real>): Books {
    if entries == [] then EMPTY_BOOKS
    else Enter(BooksOf(entries[..|entries| - 1], cap), entries[|entries| - 1], cap)
  }

  lemma {:induction false} BooksSnoc(entries: seq<Option<Seat>>, entry: Option<Seat>, cap: Option<real>)
    ensures BooksOf(entries + [entry], cap) == Enter(BooksOf(entries, cap), entry, cap)
  {
    assert (entries + [entry])[..|entries|] == entries;
  }

  lemma {:induction false} BooksNext(entries: seq<Option<Seat>>, n: nat, cap: Option<real>)
    requires n < |entries|
    ensures BooksOf(entries[..n + 1], cap) == Enter(BooksOf(entries[..n], cap), entries[n], cap)
  {
    assert entries[..n + 1] == entries[..n] + [entries[n]];
    BooksSnoc(entries[..n], entries[n], cap);
  }

  // ------------------------------------------------------------------- the loops

  method AddQuotas(books: Books, seat: Seat) returns (totals: PerQuota<int>, blockers: seq<Blocker>)
    ensures totals == Added(books.totals, seat.quotas, 4)
    ensures blockers == books.blockers + QuotaGaps(seat, 4)
  {
    totals, blockers := books.totals, books.blockers;
    for k := 0 to 4
      invariant totals == Added(books.totals, seat.quotas, k)
      invariant blockers == books.blockers + QuotaGaps(seat, k)
    {
      var q := QuotaAt(k);
      var value := seat.quotas.At(q);
      if value.None? {
        blockers := blockers + [QuotaInvalid(q)];
      } else {
        totals := totals.With(q, totals.At(q) + value.value);
      }
    }
  }

  method ReadUtilization(seat: Seat, cap: Option<real>, blockers: seq<Blocker>, noisy: seq<NoisyNeighbour>)
    returns (blockers': seq<Blocker>, noisy': seq<NoisyNeighbour>)
    ensures blockers' == blockers + UtilizationGaps(seat, 4)
    ensures noisy' == noisy + Noise(seat, cap, 4)
  {
    blockers', noisy' := blockers, noisy;
    for k := 0 to 4
      invariant blockers' == blockers + UtilizationGaps(seat, k)
      invariant noisy' == noisy + Noise(seat, cap, k)
    {
      var q := QuotaAt(k);
      var value := seat.utilization.At(q);
      if value.None? {
        blockers' := blockers' + [UtilizationInvalid(q)];
      } else if cap.Some? && value.value > cap.value {
        noisy' := noisy' + [NoisyNeighbour(seat.id, q)];
      }
    }
  }

  /** The two sets of names already seen are those of the seats kept so far. */
  ghost predicate Remembered(seats: seq<Seat>, tenants: set<string>, customers: set<string>) {
    && (forall name :: name in tenants <==> exists i | 0 <= i < |seats| :: seats[i].id == name)
    && (forall name :: name in customers <==> exists i | 0 <= i < |seats| :: seats[i].customer == name)
  }

  lemma {:induction false} RememberedSnoc(seats: seq<Seat>, seat: Seat, tenants: set<string>, customers: set<string>)
    requires Remembered(seats, tenants, customers)
    ensures Remembered(seats + [seat], tenants + {seat.id}, customers + {seat.customer})
    ensures Known(seats, seat) <==> seat.id in tenants || seat.customer in customers
  {
    var longer := seats + [seat];
    assert longer[|seats|] == seat;
    assert forall i | 0 <= i < |seats| :: longer[i] == seats[i];
  }

  /** What the loop does with one tenant that has acceptable names. */
  method TakeSeat(books: Books, seat: Seat, cap: Option<real>) returns (books': Books)
    requires seat.named && !Known(books.seats, seat)
    ensures books' == Enter(books, Some(seat), cap)
  {
    var totals, blockers := AddQuotas(books, seat);
    var noisy;
    blockers, noisy := ReadUtilization(seat, cap, blockers, books.noisy);
    books' := Books(books.seats + [seat], totals, blockers, noisy);
  }

  /** One turn of the loop, with the names seen so far. */
  method TakeEntry(books: Books, entry: Option<Seat>, tenants: set<string>, customers: set<string>, cap: Option<real>)
    returns (books': Books, tenants': set<string>, customers': set<string>)
    requires Remembered(books.seats, tenants, customers)
    ensures books' == Enter(books, entry, cap)
    ensures Remembered(books'.seats, tenants', customers')
  {
    books', tenants', customers' := books, tenants, customers;
    if entry.Some? { RememberedSnoc(books.seats, entry.value, tenants, customers); }
    if entry.None? {
      books' := books.(blockers := books.blockers + [ItemInvalid]);
    } else if !entry.value.named || entry.value.id in tenants || entry.value.customer in customers {
      books' := books.(blockers := books.blockers + [IdentityInvalidOrDuplicate]);
    } else {
      books' := TakeSeat(books, entry.value, cap);
      tenants' := tenants + {entry.value.id};
      customers' := customers + {entry.value.customer};
    }
  }

  /** The loop of `_normalize_portfolio`; `entries` is what `read` makes of `raws`. */
  method Pass(raws: seq<RawTenant>, read: RawTenant -> Option<Seat>, ghost entries: seq<Option<Seat>>, cap: Option<real>)
    returns (books: Books)
    requires |entries| == |raws| && forall i | 0 <= i < |raws| :: entries[i] == read(raws[i])
    ensures books == BooksOf(entries, cap)
  {
    books := EMPTY_BOOKS;
    var tenants: set<string>, customers: set<string> := {}, {};
    for n := 0 to |raws|
      invariant books == BooksOf(entries[..n], cap)
      invariant Remembered(books.seats, tenants, customers)
    {
      BooksNext(entries, n, cap);
      books, tenants, customers := TakeEntry(books, read(raws[n]), tenants, customers, cap);
    }
    assert entries[..|raws|] == entries;
  }

  /** `_normalize_portfolio`. */
  method NormalizePortfolio(raws: seq<RawTenant>, cap: Option<real>) returns (books: Books)
    ensures books == BooksOf(SeatsOf(ReadPart(raws)), cap)
  {
    var part := ReadPart(raws);
    books := Pass(part, SeatOf, SeatsOf(part), cap);
  }

  // ------------------------------------------- what a pass without blockers means

  predicate Sound(seat: Seat) {
    seat.named && forall q :: seat.quotas.At(q).Some? && seat.utilization.At(q).Some?
  }

  /** Every entry is sound and no two share a tenant id or a customer id. */
  ghost predicate Clean(entries: seq<Option<Seat>>) {
    && (forall i | 0 <= i < |entries| :: entries[i].Some? && Sound(entries[i].value))
    && (forall i, j | 0 <= i < j < |entries| ::
          entries[i].value.id != entries[j].value.id && entries[i].value.customer != entries[j].value.customer)
  }

  function Amount(entry: Option<Seat>, q: Quota): int {
    if entry.Some? && entry.value.quotas.At(q).Some? then entry.value.quotas.At(q).value else 0
  }

  function Total(entries: seq<Option<Seat>>, q: Quota): int {
    if entries == [] then 0 else Total(entries[..|entries| - 1], q) + Amount(entries[|entries| - 1], q)
  }

  ghost predicate Quiet(entries: seq<Option<Seat>>, cap: Option<real>) {
    forall i, q | 0 <= i < |entries| && entries[i].Some? :: !TooBusy(entries[i].value, q, cap)
  }

  /** What the books hold after a pass over clean entries. */
  ghost predicate Balanced(books: Books, entries: seq<Option<Seat>>) {
    && |books.seats| == |entries|
    && (forall i | 0 <= i < |entries| :: entries[i] == Some(books.seats[i]))
    && (forall q :: books.totals.At(q) == Total(entries, q))
  }

  lemma {:induction false} FourGaps(seat: Seat)
    ensures QuotaGaps(seat, 4) == [] && UtilizationGaps(seat, 4) == [] <==>
            forall q :: seat.quotas.At(q).Some? && seat.utilization.At(q).Some?
  {
    assert QuotaAt(0) == CapacityUnits && QuotaAt(1) == CallsPerCycle;
    assert QuotaAt(2) == TokensPerCycle && QuotaAt(3) == SupportTickets;
    QuotaGapsPrefix(seat);
    UtilizationGapsPrefix(seat);
    if forall k: nat | k < 4 :: seat.quotas.At(QuotaAt(k)).Some? && seat.utilization.At(QuotaAt(k)).Some? {
      forall q
        ensures seat.quotas.At(q).Some? && seat.utilization.At(q).Some?
      {
        assert seat.quotas.At(QuotaAt(IndexOf(q))).Some? && seat.utilization.At(QuotaAt(IndexOf(q))).Some?;
      }
    }
  }

  lemma {:induction false} QuotaGapsPrefix(seat: Seat)
    ensures QuotaGaps(seat, 4) == [] <==> forall k: nat | k < 4 :: seat.quotas.At(QuotaAt(k)).Some?
  {
    assert QuotaGaps(seat, 4) == QuotaGaps(seat, 3) + When(seat.quotas.At(QuotaAt(3)).None?, QuotaInvalid(QuotaAt(3)));
    assert QuotaGaps(seat, 2) == QuotaGaps(seat, 1) + When(seat.quotas.At(QuotaAt(1)).None?, QuotaInvalid(QuotaAt(1)));
  }

  lemma {:induction false} UtilizationGapsPrefix(seat: Seat)
    ensures UtilizationGaps(seat, 4) == [] <==> forall k: nat | k < 4 :: seat.utilization.At(QuotaAt(k)).Some?
  {
    assert UtilizationGaps(seat, 4)
        == UtilizationGaps(seat, 3)
           + When(seat.utilization.At(QuotaAt(3)).None?, UtilizationInvalid(QuotaAt(3)));
    assert UtilizationGaps(seat, 2)
        == UtilizationGaps(seat, 1)
           + When(seat.utilization.At(QuotaAt(1)).None?, UtilizationInvalid(QuotaAt(1)));
  }

  lemma {:induction false} NoisePrefix(seat: Seat, cap: Option<real>)
    ensures Noise(seat, cap, 4) == [] <==> forall q :: !TooBusy(seat, q, cap)
  {
    assert Noise(seat, cap, 4)
        == Noise(seat, cap, 3) + When(TooBusy(seat, QuotaAt(3), cap), NoisyNeighbour(seat.id, QuotaAt(3)));
    assert Noise(seat, cap, 2)
        == Noise(seat, cap, 1) + When(TooBusy(seat, QuotaAt(1), cap), NoisyNeighbour(seat.id, QuotaAt(1)));
    if forall k: nat | k < 4 :: !TooBusy(seat, QuotaAt(k), cap) {
      forall q
        ensures !TooBusy(seat, q, cap)
      {
        assert !TooBusy(seat, QuotaAt(IndexOf(q)), cap);
      }
    }
  }

  lemma {:induction false} AddedIsSum(base: PerQuota<int>, quotas: PerQuota<Option<int>>, k: nat, q: Quota)
    requires k <= 4
    ensures Added(base, quotas, k).At(q)
         == base.At(q) + if IndexOf(q) < k && quotas.At(q).Some? then quotas.At(q).value else 0
  {
    if k > 0 { AddedIsSum(base, quotas, k - 1, q); }
  }

  lemma {:induction false} CleanSnoc(entries: seq<Option<Seat>>, entry: Option<Seat>, seats: seq<Seat>)
    requires Clean(entries) && |seats| == |entries|
    requires forall i | 0 <= i < |entries| :: entries[i] == Some(seats[i])
    ensures Clean(entries + [entry]) <==> entry.Some? && Sound(entry.value) && !Known(seats, entry.value)
  {
    var longer := entries + [entry];
    assert longer[|entries|] == entry;
    assert forall i | 0 <= i < |entries| :: longer[i] == entries[i] == Some(seats[i]);
  }

  lemma {:induction false} CleanPrefix(entries: seq<Option<Seat>>, n: nat)
    requires n <= |entries|
    ensures Clean(entries) ==> Clean(entries[..n])
  {
  }

  /** One clean entry more: the books stay free of blockers exactly when the entry is
      sound and new, and then they stay balanced. */
  lemma {:induction false} EnterBalanced(books: Books, entries: seq<Option<Seat>>, entry: Option<Seat>, cap: Option<real>)
    requires books.blockers == [] && Balanced(books, entries)
    ensures Enter(books, entry, cap).blockers == [] <==>
            entry.Some? && Sound(entry.value) && !Known(books.seats, entry.value)
    ensures Enter(books, entry, cap).blockers == [] ==> Balanced(Enter(books, entry, cap), entries + [entry])
  {
    if entry.Some? { FourGaps(entry.value); }
    var books', longer := Enter(books, entry, cap), entries + [entry];
    if books'.blockers == [] {
      assert longer[..|entries|] == entries;
      forall q
        ensures books'.totals.At(q) == Total(longer, q)
      {
        AddedIsSum(books.totals, entry.value.quotas, 4, q);
      }
    }
  }

  lemma {:induction false} EnterKeepsBlockers(books: Books, entry: Option<Seat>, cap: Option<real>)
    ensures Enter(books, entry, cap).blockers == [] ==> books.blockers == []
  {
  }

  /** The one-pass reader raises no blocker exactly when the entries it read are sound
      and pairwise distinct, and then nothing is skipped and every total is the sum. */
  lemma {:induction false} NoBlockersIffClean(entries: seq<Option<Seat>>, cap: Option<real>)
    ensures BooksOf(entries, cap).blockers == [] <==> Clean(entries)
    ensures Clean(entries) ==> Balanced(BooksOf(entries, cap), entries)
    decreases |entries|
  {
    if entries == [] {
      forall q ensures EMPTY_BOOKS.totals.At(q) == 0 {}
    } else {
      var before, last := entries[..|entries| - 1], entries[|entries| - 1];
      assert entries == before + [last];
      NoBlockersIffClean(before, cap);
      CleanPrefix(entries, |before|);
      var books := BooksOf(before, cap);
      EnterKeepsBlockers(books, last, cap);
      if Clean(before) {
        CleanSnoc(before, last, books.seats);
        EnterBalanced(books, before, last, cap);
      }
    }
  }

  /** Among clean entries the reader reports a noisy neighbour exactly when there is one. */
  lemma {:induction false} NoisyIffNotQuiet(entries: seq<Option<Seat>>, cap: Option<real>)
    requires Clean(entries)
    ensures BooksOf(entries, cap).noisy == [] <==> Quiet(entries, cap)
    decreases |entries|
  {
    if entries != [] {
      var before, last := entries[..|entries| - 1], entries[|entries| - 1];
      assert entries == before + [last];
      CleanPrefix(entries, |before|);
      NoBlockersIffClean(before, cap);
      NoisyIffNotQuiet(before, cap);
      CleanSnoc(before, last, BooksOf(before, cap).seats);
      NoisePrefix(last.value, cap);
      QuietSnoc(before, last, cap);
    }
  }

  lemma {:induction false} QuietSnoc(entries: seq<Option<Seat>>, entry: Option<Seat>, cap: Option<real>)
    requires entry.Some?
    ensures Quiet(entries + [entry], cap) <==>
            Quiet(entries, cap) && forall q :: !TooBusy(entry.value, q, cap)
  {
    var longer := entries + [entry];
    assert longer[|entries|] == entry;
    assert forall i | 0 <= i < |entries| :: longer[i] == entries[i];
  }
}
