/** The concurrent collection loop of atlasquant_advanced_boot.py.

    Three loaders run at the same time, each with its own time budget.  Times are
    integer milliseconds.  A loader is described by what it will produce and when
    (possibly never); the clock and `concurrent.futures.wait` are the methods
    `ReadClock` and `Wait`, whose contracts allow every reading to be up to `slack`
    milliseconds late.  With `slack == 0` waits are exact. */
module SourceRefresh {
  import opened Wrappers

  type Data = map<string, string>

  datatype Source = MacroEua | Fed | DadosMoedas

  const SOURCES: set<Source> := {MacroEua, Fed, DadosMoedas}

  const MIN_TIMEOUT := 50

  function DefaultTimeout(name: Source): int {
    match name
    case MacroEua => 25000
    case Fed => 25000
    case DadosMoedas => 50000
  }

  datatype LoaderValue = Mapping(data: Data) | EmptyValue | OtherValue

  datatype LoaderResult = Raised(message: string) | Returned(value: LoaderValue)

  datatype Loader = Loader(result: LoaderResult, doneAt: Option<int>) {
    predicate DoneBy(t: int) { doneAt.Some? && doneAt.value <= t }
  }

  datatype Report =
    | Ok(value: Data, elapsed: int)
    | Failed(detail: string, elapsed: int)
    | Empty(detail: string, elapsed: int)
    | Slow(budget: int, elapsed: int)
    | Missing

  datatype Outcome = Outcome(
    publishable: bool,
    payload: Option<map<Source, Data>>,
    sources: map<Source, Report>,
    error: string)
  {
    /** What a caller may rely on, whatever the loaders did. */
    ghost predicate Sound() {
      && (publishable ==>
            && payload.Some?
            && payload.value.Keys == SOURCES
            && forall s | s in payload.value :: payload.value[s] != map[])
      && (publishable <==> error == "")
      && (payload.Some? <==> publishable)
    }
  }

  function TimeoutFor(name: Source, timeout: Option<int>, timeouts: map<Source, int>): (budget: int)
    ensures MIN_TIMEOUT <= budget
  {
    var asked :=
      if name in timeouts then timeouts[name]
      else if timeout.Some? then timeout.value
      else DefaultTimeout(name);
    if asked < MIN_TIMEOUT then MIN_TIMEOUT else asked
  }

  /** `_call_loader` followed by the report the loop files for it. */
  function ReportFor(result: LoaderResult, elapsed: int): Report {
    match result
    case Raised(message) => Failed(message[..if |message| < 300 then |message| else 300], elapsed)
    case Returned(Mapping(data)) =>
      if data == map[] then Empty("retorno vazio", elapsed) else Ok(data, elapsed)
    case Returned(EmptyValue) => Empty("retorno vazio", elapsed)
    case Returned(OtherValue) => Empty("retorno inválido", elapsed)
  }

  function Label(r: Report): string {
    match r
    case Ok(_, _) => "ok"
    case Failed(d, _) => "falhou" + Parenthesis(d)
    case Empty(d, _) => "vazia" + Parenthesis(d)
    case Slow(_, _) => "lenta (timeout)"
    case Missing => "ausente (loader ausente)"
  }

  function Parenthesis(detail: string): string {
    if detail == "" then "" else " (" + detail + ")"
  }

  function FormatSourceReport(reports: map<Source, Report>): (text: string)
    requires reports.Keys == SOURCES
    ensures text != ""
  {
    "macro_eua: " + Label(reports[MacroEua])
    + "; fed: " + Label(reports[Fed])
    + "; dados_moedas: " + Label(reports[DadosMoedas])
  }

  /** `r` is the report of a loader that was seen to finish with `result`. */
  predicate Judged(r: Report, result: LoaderResult) {
    (r.Ok? || r.Failed? || r.Empty?) && r == ReportFor(result, r.elapsed)
  }

  /** The verdict on a loader judged exactly at its own deadline. */
  ghost predicate Verdict(r: Report, loader: Loader, deadline: int, budget: int) {
    if loader.DoneBy(deadline) then Judged(r, loader.result) else r.Slow? && r.budget == budget
  }

  /** The report each source deserves when waits are exact: judged at its own
      deadline, independently of the other two. */
  ghost predicate Deserved(
    r: Report, name: Source, loaders: map<Source, Loader>, started: int, budget: int)
  {
    if name in loaders then Verdict(r, loaders[name], started + budget, budget) else r == Missing
  }

  ghost predicate SourceOk(r: Report, name: Source, loaders: map<Source, Loader>, latest: int) {
    r.Ok? ==>
      && name in loaders
      && loaders[name].DoneBy(latest)
      && loaders[name].result == Returned(Mapping(r.value))
      && r.value != map[]
  }

  // ---------------------------------------------------------------- environment

  /** A reading of the monotonic clock, at most `slack` after the previous event. */
  method ReadClock(last: int, slack: nat) returns (t: int)
    ensures last <= t <= last + slack
  {
    t := last;
  }

  /** `wait(pending, timeout, FIRST_COMPLETED)`: returns at the first completion or
      at the timeout, whichever comes first, at most `slack` late. */
  method Wait(pending: set<Source>, loaders: map<Source, Loader>, start: int, timeout: nat, slack: nat)
    returns (done: set<Source>, at: int)
    requires pending <= loaders.Keys
    ensures start <= at <= start + timeout + slack
    ensures done == set s | s in pending && loaders[s].DoneBy(at)
    ensures done == {} ==> start + timeout <= at
    ensures forall s | s in pending :: loaders[s].DoneBy(start) ==> at <= start + slack
  {
    at := start + timeout;
    var todo := pending;
    while todo != {}
      invariant start <= at <= start + timeout
      invariant todo <= pending
      invariant at < start + timeout ==> exists s :: s in pending && loaders[s].DoneBy(at)
      invariant forall s | s in pending - todo :: loaders[s].DoneBy(start) ==> at == start
    {
      var s :| s in todo;
      todo := todo - {s};
      if loaders[s].DoneBy(at) {
        at := if loaders[s].doneAt.value < start then start else loaders[s].doneAt.value;
      }
    }
    done := set s | s in pending && loaders[s].DoneBy(at);
  }

  // ----------------------------------------------------------------------- loop

  function Max(a: int, b: int): int { if a < b then b else a }

  /** The largest (not the sum) of the budgets of the loaders that exist. */
  function LargestBudget(names: set<Source>, timeout: Option<int>, timeouts: map<Source, int>): int {
    Max(
      if MacroEua in names then TimeoutFor(MacroEua, timeout, timeouts) else 0,
      Max(
        if Fed in names then TimeoutFor(Fed, timeout, timeouts) else 0,
        if DadosMoedas in names then TimeoutFor(DadosMoedas, timeout, timeouts) else 0))
  }

  /** The most that `used` clock readings can be late, for up to three readings. */
  function Lateness(used: nat, slack: nat): nat {
    if used == 0 then 0 else if used == 1 then slack else if used == 2 then 2 * slack else 3 * slack
  }

  lemma AtMostThree(names: set<Source>)
    ensures |names| <= 3
  {
    EverySource(names);
    assert |names| + |SOURCES - names| == |SOURCES| by { assert names + (SOURCES - names) == SOURCES; }
  }

  lemma LargestIsLargest(names: set<Source>, timeout: Option<int>, timeouts: map<Source, int>)
    ensures forall s | s in names :: TimeoutFor(s, timeout, timeouts) <= LargestBudget(names, timeout, timeouts)
    ensures 0 <= LargestBudget(names, timeout, timeouts)
  {
    forall s | s in names
      ensures TimeoutFor(s, timeout, timeouts) <= LargestBudget(names, timeout, timeouts)
    {
      match s case MacroEua => case Fed => case DadosMoedas =>
    }
  }

  /** One deadline a source, each from its own clock reading. */
  method ReadDeadlines(names: set<Source>, timeout: Option<int>, timeouts: map<Source, int>, started: int, slack: nat)
    returns (deadlines: map<Source, int>, now: int)
    ensures deadlines.Keys == names
    ensures started <= now <= started + 3 * slack
    ensures forall s | s in names ::
              started + TimeoutFor(s, timeout, timeouts) <= deadlines[s]
              <= started + TimeoutFor(s, timeout, timeouts) + 3 * slack
  {
    AtMostThree(names);
    deadlines, now := map[], started;
    var todo := names;
    ghost var used := 0;
    while todo != {}
      invariant todo <= names && deadlines.Keys == names - todo
      invariant used + |todo| <= 3 && started <= now <= started + Lateness(used, slack)
      invariant forall s | s in deadlines ::
                  started + TimeoutFor(s, timeout, timeouts) <= deadlines[s]
                  <= started + TimeoutFor(s, timeout, timeouts) + 3 * slack
    {
      var s :| s in todo;
      now := ReadClock(now, slack);
      deadlines := deadlines[s := now + TimeoutFor(s, timeout, timeouts)];
      todo := todo - {s};
      used := used + 1;
    }
  }

  /** The time left until the earliest deadline, from one clock reading a source. */
  method Remaining(pending: set<Source>, deadlines: map<Source, int>, last: int, slack: nat)
    returns (remaining: int, now: int, ghost first: Source)
    requires pending != {} && pending <= deadlines.Keys
    ensures last <= now <= last + 3 * slack
    ensures first in pending && deadlines[first] - now <= remaining
    ensures forall s | s in pending :: remaining <= deadlines[s] - last
  {
    AtMostThree(pending);
    var todo := pending;
    var s :| s in todo;
    todo := todo - {s};
    now := ReadClock(last, slack);
    remaining, first := deadlines[s] - now, s;
    ghost var used := 1;
    while todo != {}
      invariant todo < pending && used + |todo| <= 3
      invariant last <= now <= last + Lateness(used, slack)
      invariant first in pending && deadlines[first] - now <= remaining
      invariant forall s | s in pending - todo :: remaining <= deadlines[s] - last
    {
      s :| s in todo;
      todo := todo - {s};
      now := ReadClock(now, slack);
      if deadlines[s] - now < remaining { remaining, first := deadlines[s] - now, s; }
      used := used + 1;
    }
  }

  /** One clock reading for every completed source. */
  method ReadElapsed(done: set<Source>, started: int, last: int, slack: nat)
    returns (elapsed: map<Source, int>, now: int)
    ensures elapsed.Keys == done
    ensures last <= now <= last + 3 * slack
  {
    AtMostThree(done);
    elapsed, now := map[], last;
    var todo := done;
    ghost var used := 0;
    while todo != {}
      invariant todo <= done && used + |todo| <= 3 && elapsed.Keys == done - todo
      invariant last <= now <= last + Lateness(used, slack)
    {
      var s :| s in todo;
      now := ReadClock(now, slack);
      elapsed := elapsed[s := now - started];
      todo := todo - {s};
      used := used + 1;
    }
  }

  /** The body of `for future in done`: every completed source gets its report. */
  method FileDone(done: set<Source>, loaders: map<Source, Loader>, reports: map<Source, Report>, started: int, last: int, slack: nat)
    returns (filed: map<Source, Report>, now: int)
    requires done <= loaders.Keys
    ensures last <= now <= last + 3 * slack
    ensures filed.Keys == reports.Keys + done
    ensures forall s | s in reports && s !in done :: filed[s] == reports[s]
    ensures forall s | s in done :: Judged(filed[s], loaders[s].result)
  {
    var elapsed;
    elapsed, now := ReadElapsed(done, started, last, slack);
    filed := reports + map s | s in done :: ReportFor(loaders[s].result, elapsed[s]);
  }

  /** Sources whose deadline has passed are given up as slow. */
  method Expire(pending: set<Source>, deadlines: map<Source, int>, budgets: map<Source, int>, reports: map<Source, Report>, started: int, now: int)
    returns (left: set<Source>, filed: map<Source, Report>)
    requires pending <= deadlines.Keys && pending <= budgets.Keys
    ensures left == set s | s in pending && now < deadlines[s]
    ensures filed.Keys == reports.Keys + (pending - left)
    ensures forall s | s in pending - left :: filed[s] == Slow(budgets[s], now - started)
    ensures forall s | s in reports && s !in pending - left :: filed[s] == reports[s]
  {
    left := set s | s in pending && now < deadlines[s];
    filed := reports + map s | s in pending - left :: Slow(budgets[s], now - started);
  }

  /** What `for future in done` and the expiry leave behind is justified. */
  lemma SettledNow(
    pending: set<Source>, left: set<Source>, done: set<Source>, loaders: map<Source, Loader>,
    deadlines: map<Source, int>, budgets: map<Source, int>, filed: map<Source, Report>,
    started: int, at: int, now: int, slack: nat)
    requires pending <= loaders.Keys && pending <= deadlines.Keys && pending <= budgets.Keys
    requires pending - left <= filed.Keys && at <= now
    requires done == set s | s in pending && loaders[s].DoneBy(at)
    requires left == set s | s in pending - done && now < deadlines[s]
    requires forall s | s in done :: Judged(filed[s], loaders[s].result)
    requires forall s | s in pending - done - left :: filed[s] == Slow(budgets[s], now - started)
    requires slack == 0 ==> at == now && forall s | s in pending :: at <= deadlines[s]
    ensures forall s | s in pending - left :: SourceOk(filed[s], s, loaders, now)
    ensures slack == 0 ==> forall s | s in pending - left :: Verdict(filed[s], loaders[s], deadlines[s], budgets[s])
  {
    forall s | s in pending - left
      ensures SourceOk(filed[s], s, loaders, now)
      ensures slack == 0 ==> Verdict(filed[s], loaders[s], deadlines[s], budgets[s])
    {
      if s !in done { assert deadlines[s] <= now; }
    }
  }

  /** One turn of the loop: some pending source is settled every time. */
  method Round(
    pending: set<Source>, loaders: map<Source, Loader>, deadlines: map<Source, int>, budgets: map<Source, int>,
    reports: map<Source, Report>, started: int, last: int, slack: nat, ghost limit: int)
    returns (left: set<Source>, filed: map<Source, Report>, now: int)
    requires pending != {} && pending <= loaders.Keys && pending <= deadlines.Keys && pending <= budgets.Keys
    requires last <= limit && forall s | s in pending :: deadlines[s] <= limit
    requires slack == 0 ==> forall s | s in pending :: last < deadlines[s]
    ensures left < pending
    ensures filed.Keys == reports.Keys + (pending - left)
    ensures forall s | s in reports && s !in pending :: filed[s] == reports[s]
    ensures last <= now <= limit + 8 * slack
    ensures forall s | s in left :: now < deadlines[s]
    ensures forall s | s in pending - left :: SourceOk(filed[s], s, loaders, now)
    ensures slack == 0 ==> forall s | s in pending - left :: Verdict(filed[s], loaders[s], deadlines[s], budgets[s])
  {
    var remaining, before, first := Remaining(pending, deadlines, last, slack);
    var done, at := Wait(pending, loaders, before, if remaining < 0 then 0 else remaining, slack);
    if slack == 0 {
      assert before == last < deadlines[first];
      assert at <= last + remaining;
      assert forall s | s in pending :: at <= deadlines[s];
    }
    var judged;
    judged, now := FileDone(done, loaders, reports, started, at, slack);
    now := ReadClock(now, slack);
    left, filed := Expire(pending - done, deadlines, budgets, judged, started, now);
    assert left < pending by {
      if done == {} { assert first !in left; } else { var s :| s in done; assert s !in left; }
    }
    assert forall s | s in done :: filed[s] == judged[s] && Judged(filed[s], loaders[s].result);
    SettledNow(pending, left, done, loaders, deadlines, budgets, filed, started, at, now, slack);
  }

  /** The loop itself: the pending set shrinks every turn until all is settled. */
  method Settle(
    loaders: map<Source, Loader>, deadlines: map<Source, int>, budgets: map<Source, int>,
    started: int, first: int, slack: nat, ghost limit: int)
    returns (reports: map<Source, Report>, now: int)
    requires deadlines.Keys == loaders.Keys && budgets.Keys == SOURCES
    requires first <= limit && forall s | s in deadlines :: deadlines[s] <= limit
    requires slack == 0 ==> forall s | s in deadlines :: first < deadlines[s]
    ensures reports.Keys == SOURCES
    ensures first <= now <= limit + 8 * slack
    ensures forall s | s in SOURCES && s !in loaders :: reports[s] == Missing
    ensures forall s | s in loaders && s in SOURCES :: SourceOk(reports[s], s, loaders, now)
    ensures slack == 0 ==> forall s | s in loaders && s in SOURCES :: Verdict(reports[s], loaders[s], deadlines[s], budgets[s])
  {
    EverySource(loaders.Keys);
    reports, now := map s | s in SOURCES && s !in loaders :: Missing, first;
    var pending := loaders.Keys;
    while pending != {}
      invariant pending <= loaders.Keys && reports.Keys == SOURCES - pending
      invariant first <= now <= limit + 8 * slack
      invariant pending != {} ==> now <= limit
      invariant slack == 0 ==> forall s | s in pending :: now < deadlines[s]
      invariant forall s | s in reports && s !in loaders :: reports[s] == Missing
      invariant forall s | s in reports && s in loaders :: SourceOk(reports[s], s, loaders, now)
      invariant slack == 0 ==> forall s | s in reports && s in loaders ::
                  Verdict(reports[s], loaders[s], deadlines[s], budgets[s])
      decreases pending
    {
      pending, reports, now := Round(pending, loaders, deadlines, budgets, reports, started, now, slack, limit);
      if pending != {} { var s :| s in pending; assert now < deadlines[s] <= limit; }
    }
  }

  lemma EverySource(names: set<Source>)
    ensures names <= SOURCES
  {
    forall s | s in names ensures s in SOURCES {
      match s case MacroEua => case Fed => case DadosMoedas =>
    }
  }

  lemma JudgedByDeadline(
    reports: map<Source, Report>, loaders: map<Source, Loader>, deadlines: map<Source, int>,
    budgets: map<Source, int>, startedAt: int, now: int, finishedAt: int, slack: nat)
    requires reports.Keys == budgets.Keys == SOURCES && deadlines.Keys == loaders.Keys <= SOURCES && now <= finishedAt
    requires forall s | s in SOURCES && s !in loaders :: reports[s] == Missing
    requires forall s | s in loaders && s in SOURCES :: SourceOk(reports[s], s, loaders, now)
    requires slack == 0 ==> forall s | s in loaders && s in SOURCES :: Verdict(reports[s], loaders[s], deadlines[s], budgets[s])
    requires slack == 0 ==> forall s | s in loaders :: deadlines[s] == startedAt + budgets[s]
    ensures forall s | s in SOURCES :: SourceOk(reports[s], s, loaders, finishedAt)
    ensures slack == 0 ==> forall s | s in SOURCES :: Deserved(reports[s], s, loaders, startedAt, budgets[s])
  {
    forall s | s in SOURCES
      ensures SourceOk(reports[s], s, loaders, finishedAt)
      ensures slack == 0 ==> Deserved(reports[s], s, loaders, startedAt, budgets[s])
    {
    }
  }

  /** The dictionary returned by the collection. */
  function Assemble(reports: map<Source, Report>): (outcome: Outcome)
    requires reports.Keys == SOURCES
    requires forall s | s in SOURCES :: reports[s].Ok? ==> reports[s].value != map[]
    ensures outcome.Sound()
    ensures outcome.publishable <==> forall s | s in SOURCES :: reports[s].Ok?
    ensures outcome.publishable ==> outcome.payload == Some(map s | s in SOURCES :: reports[s].value)
    ensures outcome.sources == reports
  {
    if forall s | s in SOURCES :: reports[s].Ok? then
      Outcome(true, Some(map s | s in SOURCES :: reports[s].value), reports, "")
    else
      Outcome(false, None, reports, FormatSourceReport(reports))
  }

  /** `collect_source_refresh`.  For any loaders, budgets and lateness:
      every source ends with exactly one report; a report says Ok only for a mapping
      that was seen and is not empty; the outcome is publishable exactly when all three
      are Ok; and the wall time is bounded by the largest budget. */
  method CollectSourceRefresh(
    loaders: map<Source, Loader>, timeout: Option<int>, timeouts: map<Source, int>, startedAt: int, slack: nat)
    returns (outcome: Outcome, finishedAt: int)
    ensures outcome.Sound()
    ensures outcome.sources.Keys == SOURCES
    ensures forall s | s in SOURCES :: SourceOk(outcome.sources[s], s, loaders, finishedAt)
    ensures outcome.publishable <==> forall s | s in SOURCES :: outcome.sources[s].Ok?
    ensures outcome.publishable ==>
              outcome.payload == Some(map s | s in SOURCES :: outcome.sources[s].value)
    ensures startedAt <= finishedAt <= startedAt + LargestBudget(loaders.Keys, timeout, timeouts) + 13 * slack
    ensures slack == 0 ==> forall s | s in SOURCES ::
              Deserved(outcome.sources[s], s, loaders, startedAt, TimeoutFor(s, timeout, timeouts))
  {
    EverySource(loaders.Keys);
    LargestIsLargest(loaders.Keys, timeout, timeouts);
    var budgets := map s | s in SOURCES :: TimeoutFor(s, timeout, timeouts);
    var started := ReadClock(startedAt, slack);
    var deadlines, first := ReadDeadlines(loaders.Keys, timeout, timeouts, started, slack);
    ghost var limit := startedAt + LargestBudget(loaders.Keys, timeout, timeouts) + 4 * slack;
    var reports, now := Settle(loaders, deadlines, budgets, started, first, slack, limit);
    finishedAt := ReadClock(now, slack);
    JudgedByDeadline(reports, loaders, deadlines, budgets, startedAt, now, finishedAt, slack);
    outcome := Assemble(reports);
  }
}
