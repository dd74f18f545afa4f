/** The login throttle of atlasquant_access_panel.py.  Times are whole seconds. */
module LoginThrottle {
  const MAX_FAILED_ATTEMPTS := 5
  const LOCK_SECONDS := 300

  /** The value kept in the browser session: absent or not a dictionary (`Blank`), a
      dictionary whose numbers do not parse or are negative (`Corrupt`), or proper. */
  datatype State = Blank | Corrupt | Counted(attempts: nat, lockUntil: nat)

  datatype Status = Status(attempts: nat, lockUntil: nat, locked: bool, retryAfter: nat)

  /** `throttle_status`. */
  function StatusAt(s: State, now: nat): (status: Status)
    ensures status.locked <==> now < status.lockUntil
    ensures status.locked ==> status.retryAfter == status.lockUntil - now
  {
    if s.Corrupt? then Status(MAX_FAILED_ATTEMPTS, now + LOCK_SECONDS, true, LOCK_SECONDS)
    else
      var attempts := if s.Blank? then 0 else s.attempts;
      var lockUntil := if s.Blank? then 0 else s.lockUntil;
      if lockUntil != 0 && lockUntil <= now then Status(0, 0, false, 0)
      else Status(attempts, lockUntil, lockUntil > now, if lockUntil > now then lockUntil - now else 0)
  }

  function Keep(status: Status): State {
    Counted(status.attempts, status.lockUntil)
  }

  /** `record_login_failure`, as stored back. */
  function Record(s: State, now: nat): State {
    var current := StatusAt(s, now);
    if current.locked then Keep(current)
    else
      var attempts := current.attempts + 1;
      var lockUntil := if attempts >= MAX_FAILED_ATTEMPTS then now + LOCK_SECONDS else 0;
      Keep(StatusAt(Counted(attempts, lockUntil), now))
  }

  /** One visit of the login page whose submitted password is wrong: the page reads the
      clock to decide whether to offer the form, and again when it records the failure. */
  datatype Visit = Visit(pageAt: nat, submitAt: nat)

  /** The clock never runs backwards. */
  ghost predicate Ordered(visits: seq<Visit>) {
    && (forall i | 0 <= i < |visits| :: visits[i].pageAt <= visits[i].submitAt)
    && (forall i, j | 0 <= i < j < |visits| :: visits[i].submitAt <= visits[j].pageAt)
  }

  function Visited(s: State, v: Visit): State {
    if StatusAt(s, v.pageAt).locked then s else Record(s, v.submitAt)
  }

  predicate Counts(s: State, v: Visit) {
    !StatusAt(s, v.pageAt).locked && !StatusAt(s, v.submitAt).locked
  }

  function StateAfter(s: State, visits: seq<Visit>): State {
    if visits == [] then s
    else Visited(StateAfter(s, visits[..|visits| - 1]), visits[|visits| - 1])
  }

  /** The times of the failures that were counted, oldest first. */
  function Failures(s: State, visits: seq<Visit>): seq<nat> {
    if visits == [] then []
    else
      var before, v := visits[..|visits| - 1], visits[|visits| - 1];
      Failures(s, before) + if Counts(StateAfter(s, before), v) then [v.submitAt] else []
  }

  lemma {:induction false} OneVisitMore(s: State, visits: seq<Visit>, v: Visit)
    ensures StateAfter(s, visits + [v]) == Visited(StateAfter(s, visits), v)
    ensures Failures(s, visits + [v]) == Failures(s, visits) + if Counts(StateAfter(s, visits), v) then [v.submitAt] else []
  {
    assert (visits + [v])[..|visits|] == visits;
  }

  /** In order, and a lock time apart after every full block of five. */
  ghost predicate Spaced(times: seq<nat>) {
    && (forall i, j | 0 <= i <= j < |times| :: times[i] <= times[j])
    && (forall i | 4 <= i < |times| - 1 && i % MAX_FAILED_ATTEMPTS == 4 :: times[i] + LOCK_SECONDS <= times[i + 1])
  }

  /** The state is the count within the current block of five, locked after a full one. */
  ghost predicate Tracks(s: State, times: seq<nat>) {
    if times == [] then s == Blank
    else
      var last := times[|times| - 1];
      var inBlock := (|times| - 1) % MAX_FAILED_ATTEMPTS + 1;
      s == Counted(inBlock, if inBlock == MAX_FAILED_ATTEMPTS then last + LOCK_SECONDS else 0)
  }

  lemma {:induction false} SpacedSnoc(times: seq<nat>, t: nat)
    requires Spaced(times) && (times != [] ==> times[|times| - 1] <= t)
    requires times != [] && (|times| - 1) % MAX_FAILED_ATTEMPTS == 4 ==> times[|times| - 1] + LOCK_SECONDS <= t
    ensures Spaced(times + [t])
  {
  }

  lemma {:induction false} OneVisit(s: State, times: seq<nat>, v: Visit)
    requires Tracks(s, times) && Spaced(times) && v.pageAt <= v.submitAt
    requires times != [] ==> times[|times| - 1] <= v.pageAt
    ensures !Counts(s, v) ==> Tracks(Visited(s, v), times)
    ensures Counts(s, v) ==> Tracks(Visited(s, v), times + [v.submitAt]) && Spaced(times + [v.submitAt])
  {
    if Counts(s, v) {
      var n := |times|;
      NextInBlock(n);
      SpacedSnoc(times, v.submitAt);
      if n > 0 && (n - 1) % MAX_FAILED_ATTEMPTS == 4 {
        assert Visited(s, v) == Counted(1, 0);
      } else if n > 0 {
        assert Visited(s, v).attempts == s.attempts + 1;
      }
    }
  }

  lemma {:induction false} NextInBlock(n: nat)
    ensures n == 0 ==> n % MAX_FAILED_ATTEMPTS == 0
    ensures n > 0 && (n - 1) % MAX_FAILED_ATTEMPTS == 4 ==> n % MAX_FAILED_ATTEMPTS == 0
    ensures n > 0 && (n - 1) % MAX_FAILED_ATTEMPTS != 4 ==>
              n % MAX_FAILED_ATTEMPTS == (n - 1) % MAX_FAILED_ATTEMPTS + 1
  {
  }

  lemma {:induction false} RunIsTracked(visits: seq<Visit>)
    requires Ordered(visits)
    ensures Tracks(StateAfter(Blank, visits), Failures(Blank, visits))
    ensures Spaced(Failures(Blank, visits))
    ensures Failures(Blank, visits) != [] ==>
              visits != [] && Failures(Blank, visits)[|Failures(Blank, visits)| - 1] <= visits[|visits| - 1].submitAt
  {
    if visits != [] {
      var before, v := visits[..|visits| - 1], visits[|visits| - 1];
      RunIsTracked(before);
      var times := Failures(Blank, before);
      if before != [] { assert before[|before| - 1].submitAt <= v.pageAt; }
      OneVisit(StateAfter(Blank, before), times, v);
      assert times + [] == times;
    }
  }

  /** How many of the times fall in the half-open window of 300 seconds from `start`. */
  function CountInWindow(times: seq<nat>, start: int): nat {
    if times == [] then 0
    else
      var last := times[|times| - 1];
      CountInWindow(times[..|times| - 1], start) + if start <= last < start + LOCK_SECONDS then 1 else 0
  }

  lemma {:induction false} CountLast(times: seq<nat>, k: nat, start: int)
    requires k <= |times|
    ensures CountInWindow(times, start) <= CountInWindow(times[..|times| - k], start) + k
  {
    if k == 0 {
      assert times[..|times|] == times;
    } else {
      var init := times[..|times| - 1];
      CountLast(init, k - 1, start);
      assert init[..|init| - (k - 1)] == times[..|times| - k];
    }
  }

  lemma {:induction false} NoneBefore(times: seq<nat>, start: int)
    requires forall i | 0 <= i < |times| :: times[i] < start
    ensures CountInWindow(times, start) == 0
  {
    if times != [] { NoneBefore(times[..|times| - 1], start); }
  }

  /** Any six consecutive counted failures then span at least the lock time. */
  lemma {:induction false} SixSpanTheLock(times: seq<nat>, i: nat, j: nat)
    requires Spaced(times) && i + MAX_FAILED_ATTEMPTS <= j < |times|
    ensures times[i] + LOCK_SECONDS <= times[j]
  {
    var block := i / MAX_FAILED_ATTEMPTS;
    var k := block * MAX_FAILED_ATTEMPTS + 4;
    assert i == block * MAX_FAILED_ATTEMPTS + i % MAX_FAILED_ATTEMPTS;
    assert k % MAX_FAILED_ATTEMPTS == 4 && i <= k < k + 1 <= j;
    assert times[i] <= times[k] && times[k] + LOCK_SECONDS <= times[k + 1] <= times[j];
  }

  lemma {:induction false} FewInWindow(times: seq<nat>, start: int)
    requires Spaced(times)
    ensures CountInWindow(times, start) <= MAX_FAILED_ATTEMPTS
    decreases |times|
  {
    var n := |times|;
    if n <= MAX_FAILED_ATTEMPTS {
      CountLast(times, n, start);
      assert times[..0] == [];
    } else if times[n - 1] >= start + LOCK_SECONDS || times[n - 1] < start {
      FewInWindow(times[..n - 1], start);
    } else {
      var early := times[..n - MAX_FAILED_ATTEMPTS];
      SixSpanTheLock(times, n - 1 - MAX_FAILED_ATTEMPTS, n - 1);
      assert forall i | 0 <= i < |early| :: early[i] == times[i] <= times[n - 1 - MAX_FAILED_ATTEMPTS];
      NoneBefore(early, start);
      CountLast(times, MAX_FAILED_ATTEMPTS, start);
    }
  }

  /** From a blank throttle and with a clock that never runs backwards, every half-open
      window of 300 seconds holds at most five counted failures, and the state always has
      fewer than five attempts or a lock. */
  lemma {:induction false} AtMostFiveAWindow(visits: seq<Visit>, start: int)
    requires Ordered(visits)
    ensures CountInWindow(Failures(Blank, visits), start) <= MAX_FAILED_ATTEMPTS
    ensures var s := StateAfter(Blank, visits);
            s.Counted? ==> s.attempts < MAX_FAILED_ATTEMPTS || s.lockUntil > 0
  {
    RunIsTracked(visits);
    FewInWindow(Failures(Blank, visits), start);
  }

  // ------------------------------------------------------- visits among other steps

  /** The visits at those of the steps from `a` up to `b` that are visits. */
  function Among(visit: nat -> Visit, isVisit: nat -> bool, a: nat, b: nat): seq<Visit>
    requires a <= b
    decreases b - a
  {
    if a == b then [] else Among(visit, isVisit, a, b - 1) + if isVisit(b - 1) then [visit(b - 1)] else []
  }

  /** The times of the visits that are counted, `states[i]` being the throttle before step `i`. */
  function CountedAmong(states: seq<State>, visit: nat -> Visit, isVisit: nat -> bool, a: nat, b: nat): seq<nat>
    requires a <= b < |states|
    decreases b - a
  {
    if a == b then []
    else
      CountedAmong(states, visit, isVisit, a, b - 1)
      + if isVisit(b - 1) && Counts(states[b - 1], visit(b - 1)) then [visit(b - 1).submitAt] else []
  }

  /** Only the visits move the throttle. */
  ghost predicate Moves(states: seq<State>, visit: nat -> Visit, isVisit: nat -> bool, i: nat)
    requires i + 1 < |states|
  {
    states[i + 1] == if isVisit(i) then Visited(states[i], visit(i)) else states[i]
  }

  lemma {:induction false} FoldedVisits(states: seq<State>, visit: nat -> Visit, isVisit: nat -> bool, a: nat, b: nat)
    requires a <= b < |states| && states[a] == Blank
    requires forall i: nat | a <= i < b :: Moves(states, visit, isVisit, i)
    ensures states[b] == StateAfter(Blank, Among(visit, isVisit, a, b))
    ensures CountedAmong(states, visit, isVisit, a, b) == Failures(Blank, Among(visit, isVisit, a, b))
    decreases b - a
  {
    if a < b {
      var before, after := Among(visit, isVisit, a, b - 1), Among(visit, isVisit, a, b);
      FoldedVisits(states, visit, isVisit, a, b - 1);
      assert Moves(states, visit, isVisit, b - 1);
      if isVisit(b - 1) {
        OneVisitMore(Blank, before, visit(b - 1));
        assert after == before + [visit(b - 1)];
      } else {
        assert after == before;
      }
    }
  }

  lemma {:induction false} AmongIsOrdered(visit: nat -> Visit, isVisit: nat -> bool, a: nat, b: nat)
    requires a <= b && forall i: nat | a <= i < b :: visit(i).pageAt <= visit(i).submitAt
    requires forall i: nat, j: nat | a <= i < j < b :: visit(i).submitAt <= visit(j).pageAt
    ensures Ordered(Among(visit, isVisit, a, b))
    ensures forall i | 0 <= i < |Among(visit, isVisit, a, b)| ::
              exists k: nat :: a <= k < b && Among(visit, isVisit, a, b)[i] == visit(k)
    decreases b - a
  {
    if a < b {
      AmongIsOrdered(visit, isVisit, a, b - 1);
      var before := Among(visit, isVisit, a, b - 1);
      forall i | 0 <= i < |before|
        ensures before[i].submitAt <= visit(b - 1).pageAt
      {
        var k: nat :| a <= k < b - 1 && before[i] == visit(k);
      }
    }
  }
}
