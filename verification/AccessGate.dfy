/** The login gate of atlasquant_access_panel.py over a whole browser session: what
    `render_access_gate` keeps in the session state, and what an authenticated answer
    proves about the past.  Times are whole seconds; the credential fingerprint stands
    for the digest of the whole registry entry. */
module AccessGate {
  import opened Wrappers
  import opened AccessControl
  import LoginThrottle
  import Texts

  const SESSION_MAX_SECONDS := 12 * 60 * 60
  const SESSION_IDLE_SECONDS := 2 * 60 * 60

  /** `HashFormat.VerifyPassword` with its key-derivation function fixed. */
  type Verifier = (string, string) -> bool

  datatype Fingerprint = Fingerprint(of: AccessUser)

  datatype Session = Session(username: string, role: Role, fingerprint: Fingerprint, authenticatedAt: int, lastSeen: int)

  datatype Mode = Open | Preview | Locked | Login | LoginLocked | Authenticated

  datatype Reason =
    | AuthDisabled | BootstrapPreview | NoUsers | AuthRequired | SessionRevoked | Fine
    | InvalidTime | MaxAge | IdleTimeout | TooManyAttempts

  datatype Decision = Decision(mode: Mode, reason: Reason)

  /** How a rendering ends: with an answer, or by rerunning the page after a login or a
      logout. */
  datatype Outcome = Answer(decision: Decision) | LoginRerun(user: AccessUser, at: int) | LogoutRerun

  /** One rendering: the configuration it reads, what the visitor does, and the successive
      clock readings it makes. */
  datatype Request = Request(
    required: bool,
    users: map<string, AccessUser>,
    preview: bool,
    logout: bool,
    form: Option<(string, string)>,
    checkAt: nat, seenAt: nat, pageAt: nat, submitAt: nat)
  {
    ghost predicate Forward() { checkAt <= seenAt <= pageAt <= submitAt }
  }

  datatype Gate = Gate(session: Option<Session>, throttle: LoginThrottle.State)

  // ------------------------------------------------------------------ decisions

  /** `authenticate`. */
  function Authenticate(verify: Verifier, name: string, password: string, users: map<string, AccessUser>): (user: Option<AccessUser>)
    ensures user.Some? ==> user.value.active && NormalizeUsername(name) in users && user.value == users[NormalizeUsername(name)]
  {
    var key := NormalizeUsername(name);
    if key == "" || key !in users || !users[key].active then None
    else if !verify(password, users[key].passwordHash) then None
    else Some(users[key])
  }

  /** `session_is_current`. */
  predicate SessionIsCurrent(s: Session, users: map<string, AccessUser>) {
    var key := NormalizeUsername(s.username);
    && key != "" && key in users && users[key].active
    && s.role == users[key].role
    && s.fingerprint == Fingerprint(users[key])
  }

  /** `evaluate_access`.  Every role holds the permission to read the application. */
  function EvaluateAccess(r: Request, session: Option<Session>): Decision {
    if !r.required then Decision(Open, AuthDisabled)
    else if r.users == map[] then
      if r.preview then Decision(Preview, BootstrapPreview) else Decision(Locked, NoUsers)
    else if session.None? then Decision(Login, AuthRequired)
    else if !SessionIsCurrent(session.value, r.users) then Decision(Login, SessionRevoked)
    else Decision(Authenticated, Fine)
  }

  /** `session_time_status`. */
  function TimeStatus(s: Session, now: int): Reason {
    if s.authenticatedAt <= 0 || s.lastSeen <= 0 || !(s.authenticatedAt <= s.lastSeen <= now) then InvalidTime
    else if now - s.authenticatedAt > SESSION_MAX_SECONDS then MaxAge
    else if now - s.lastSeen > SESSION_IDLE_SECONDS then IdleTimeout
    else Fine
  }

  function NewSession(user: AccessUser, at: int): Session {
    Session(user.username, user.role, Fingerprint(user), at, at)
  }

  /** The login page, reached without a session worth keeping. */
  function LoginPage(verify: Verifier, g: Gate, r: Request, decision: Decision): (Gate, Outcome) {
    if LoginThrottle.StatusAt(g.throttle, r.pageAt).locked then
      (g, Answer(Decision(LoginLocked, TooManyAttempts)))
    else if r.form.None? then (g, Answer(decision))
    else
      var user := Authenticate(verify, r.form.value.0, r.form.value.1, r.users);
      if user.None? then
        (g.(throttle := LoginThrottle.Record(g.throttle, r.submitAt)), Answer(decision))
      else
        (Gate(Some(NewSession(user.value, r.submitAt)), LoginThrottle.Blank), LoginRerun(user.value, r.submitAt))
  }

  /** `render_access_gate` as a function of the session state. */
  function Render(verify: Verifier, g: Gate, r: Request): (Gate, Outcome) {
    var decision := EvaluateAccess(r, g.session);
    match decision.mode
    case Preview => (g, Answer(decision))
    case Open => (g, Answer(decision))
    case Locked => (g, Answer(decision))
    case Authenticated =>
      var time := TimeStatus(g.session.value, r.checkAt);
      if time != Fine then LoginPage(verify, g.(session := None), r, Decision(Login, time))
      else
        var kept := g.(session := Some(g.session.value.(lastSeen := r.seenAt)));
        if r.logout then (kept.(session := None), LogoutRerun) else (kept, Answer(decision))
    case _ =>
      LoginPage(verify, if decision.reason == SessionRevoked then g.(session := None) else g, r, decision)
  }

  /** The gate as the application holds it. */
  class AccessPanel {
    var session: Option<Session>
    var throttle: LoginThrottle.State

    function View(): Gate
      reads this
    {
      Gate(session, throttle)
    }

    constructor ()
      ensures View() == Gate(None, LoginThrottle.Blank)
    {
      session, throttle := None, LoginThrottle.Blank;
    }

    /** `render_access_gate`. */
    method RenderAccessGate(verify: Verifier, r: Request) returns (outcome: Outcome)
      modifies this
      ensures (View(), outcome) == Render(verify, old(View()), r)
    {
      var decision := EvaluateAccess(r, session);
      if decision.mode == Preview || decision.mode == Open || decision.mode == Locked {
        return Answer(decision);
      }
      if decision.mode == Authenticated {
        var time := TimeStatus(session.value, r.checkAt);
        if time == Fine {
          session := Some(session.value.(lastSeen := r.seenAt));
          if !r.logout { return Answer(decision); }
          session := None;
          return LogoutRerun;
        }
        session := None;
        decision := Decision(Login, time);
      }
      if decision.reason == SessionRevoked { session := None; }
      if LoginThrottle.StatusAt(throttle, r.pageAt).locked {
        return Answer(Decision(LoginLocked, TooManyAttempts));
      }
      if r.form.None? { return Answer(decision); }
      var user := Authenticate(verify, r.form.value.0, r.form.value.1, r.users);
      if user.None? {
        throttle := LoginThrottle.Record(throttle, r.submitAt);
        return Answer(decision);
      }
      throttle := LoginThrottle.Blank;
      session := Some(NewSession(user.value, r.submitAt));
      outcome := LoginRerun(user.value, r.submitAt);
    }
  }

  // ------------------------------------------------------------------ whole runs

  /** A browser session: the requests, the session state before each of them and after the
      last, and how each ended. */
  datatype Run = Run(requests: seq<Request>, gates: seq<Gate>, outcomes: seq<Outcome>) {
    /** The state starts empty, every request is rendered by the gate, registries come from
        `LoadUsersConfig`, and the clock moves forward within a rendering. */
    ghost predicate Valid(verify: Verifier) {
      && |requests| == |outcomes| == |gates| - 1
      && gates[0] == Gate(None, LoginThrottle.Blank)
      && (forall i | 0 <= i < |requests| :: (gates[i + 1], outcomes[i]) == Render(verify, gates[i], requests[i]))
      && (forall i | 0 <= i < |requests| :: Usable(requests[i].users) && requests[i].Forward())
    }
  }

  predicate Accepted(outcome: Outcome) { outcome.Answer? && outcome.decision.mode == Authenticated }

  /** When the visitor who logged in at step `j` was last seen before step `n`. */
  function LastSeen(run: Run, j: nat, n: nat): int
    requires j < n <= |run.requests| == |run.outcomes|
    decreases n
  {
    if n == j + 1 then run.requests[j].submitAt
    else if Accepted(run.outcomes[n - 1]) then run.requests[n - 1].seenAt
    else LastSeen(run, j, n - 1)
  }

  /** An accepted request at step `i` came at most two hours after the previous sign of life
      and at most twelve hours after the login. */
  ghost predicate InTime(run: Run, j: nat, i: nat)
    requires j < i < |run.requests| == |run.outcomes|
  {
    Accepted(run.outcomes[i]) ==>
      && run.requests[i].checkAt - LastSeen(run, j, i) <= SESSION_IDLE_SECONDS
      && run.requests[i].checkAt - run.requests[j].submitAt <= SESSION_MAX_SECONDS
  }

  /** After the login at step `j` and before step `n` nobody logged in or out, and every
      accepted request was in time. */
  ghost predicate Unbroken(run: Run, j: nat, n: nat)
    requires j < n <= |run.requests| == |run.outcomes|
  {
    forall i | j < i < n :: run.outcomes[i].Answer? && InTime(run, j, i)
  }

  ghost predicate LoggedInAs(run: Run, j: nat, user: AccessUser)
    requires j < |run.requests| == |run.outcomes|
  {
    && run.outcomes[j] == LoginRerun(user, run.requests[j].submitAt)
    && user.active && user.username in run.requests[j].users
    && run.requests[j].users[user.username] == user
  }

  /** The session stored before step `n` stands for the login of `user` at step `j`. */
  ghost predicate Backing(run: Run, n: nat, j: nat, user: AccessUser)
    requires j < n < |run.gates| == |run.requests| + 1 && |run.requests| == |run.outcomes|
  {
    && LoggedInAs(run, j, user)
    && Unbroken(run, j, n)
    && run.gates[n].session == Some(NewSession(user, run.requests[j].submitAt).(lastSeen := LastSeen(run, j, n)))
  }

  lemma {:induction false} NameIsNormal(name: string)
    requires IsUsername(name)
    ensures NormalizeUsername(name) == name
  {
    assert Texts.StripLeft(name) == name;
    assert Texts.StripRight(name) == name;
    assert Texts.Lower(name) == name;
  }

  /** Everything one rendering does to a stored session. */
  ghost predicate Rendered(g: Gate, r: Request, g': Gate, outcome: Outcome) {
    && (outcome.LoginRerun? ==>
          && outcome.at == r.submitAt && g'.session == Some(NewSession(outcome.user, r.submitAt))
          && outcome.user.active && outcome.user.username in r.users
          && r.users[outcome.user.username] == outcome.user)
    && (!outcome.LoginRerun? && g'.session.Some? ==>
          && outcome.Answer? && g.session.Some?
          && g'.session.value == if Accepted(outcome) then g.session.value.(lastSeen := r.seenAt) else g.session.value)
    && (Accepted(outcome) ==>
          && g.session.Some? && SessionIsCurrent(g.session.value, r.users)
          && r.checkAt - g.session.value.authenticatedAt <= SESSION_MAX_SECONDS
          && r.checkAt - g.session.value.lastSeen <= SESSION_IDLE_SECONDS)
  }

  ghost predicate Keyed(users: map<string, AccessUser>) {
    forall name | name in users :: users[name].username == name
  }

  lemma {:induction false} LoginPageRendered(verify: Verifier, g: Gate, r: Request, decision: Decision)
    requires g.session.None? && decision.mode == Login && Keyed(r.users)
    ensures Rendered(g, r, LoginPage(verify, g, r, decision).0, LoginPage(verify, g, r, decision).1)
    ensures LoginPage(verify, g, r, decision).1.LoginRerun? || LoginPage(verify, g, r, decision).1.Answer?
  {
  }

  lemma {:induction false} RenderIsRendered(verify: Verifier, g: Gate, r: Request)
    requires Keyed(r.users)
    ensures Rendered(g, r, Render(verify, g, r).0, Render(verify, g, r).1)
  {
    var decision := EvaluateAccess(r, g.session);
    var without := g.(session := None);
    if decision.mode == Authenticated {
      var time := TimeStatus(g.session.value, r.checkAt);
      if time != Fine { LoginPageRendered(verify, without, r, Decision(Login, time)); }
    } else if decision.mode == Login {
      assert g.session.None? || decision.reason == SessionRevoked;
      LoginPageRendered(verify, without, r, decision);
    }
  }

  lemma {:induction false} UnbrokenExtends(run: Run, j: nat, n: nat)
    requires j < n < |run.requests| == |run.outcomes|
    requires Unbroken(run, j, n) && run.outcomes[n].Answer? && InTime(run, j, n)
    ensures Unbroken(run, j, n + 1)
  {
  }

  ghost predicate Stepwise(run: Run) {
    && |run.requests| == |run.outcomes| == |run.gates| - 1
    && run.gates[0].session.None?
    && forall i | 0 <= i < |run.requests| ::
         Rendered(run.gates[i], run.requests[i], run.gates[i + 1], run.outcomes[i])
  }

  lemma {:induction false} ValidIsStepwise(verify: Verifier, run: Run)
    requires run.Valid(verify)
    ensures Stepwise(run)
  {
    forall i | 0 <= i < |run.requests|
      ensures Rendered(run.gates[i], run.requests[i], run.gates[i + 1], run.outcomes[i])
    {
      assert Usable(run.requests[i].users);
      RenderIsRendered(verify, run.gates[i], run.requests[i]);
    }
  }

  /** In every run, every stored session is backed by its login. */
  lemma {:induction false} EverySessionIsBacked(run: Run, n: nat) returns (j: nat, user: AccessUser)
    requires Stepwise(run) && n < |run.gates| && run.gates[n].session.Some?
    ensures j < n && Backing(run, n, j, user)
  {
    var m := n - 1;
    assert Rendered(run.gates[m], run.requests[m], run.gates[m + 1], run.outcomes[m]);
    if run.outcomes[m].LoginRerun? {
      j, user := m, run.outcomes[m].user;
    } else {
      j, user := EverySessionIsBacked(run, m);
      UnbrokenExtends(run, j, m);
    }
  }

  /** A current session of somebody who logged in as `user` pins the registry entry. */
  lemma {:induction false} CurrentIsSame(s: Session, user: AccessUser, users: map<string, AccessUser>)
    requires SessionIsCurrent(s, users) && s.fingerprint == Fingerprint(user) && s.username == user.username
    requires IsUsername(user.username)
    ensures user.username in users && users[user.username] == user
  {
    NameIsNormal(user.username);
  }

  /** An authenticated answer proves a login at most twelve hours earlier, signs of life at
      most two hours apart ever since, and a registry that still holds the very entry the
      visitor logged in with: same name, role and hash, and active. */
  lemma {:induction false} AuthenticatedIsEarned(verify: Verifier, run: Run, n: nat) returns (j: nat, user: AccessUser)
    requires run.Valid(verify) && n < |run.requests| && Accepted(run.outcomes[n])
    ensures j < n && LoggedInAs(run, j, user)
    ensures run.requests[n].checkAt - run.requests[j].submitAt <= SESSION_MAX_SECONDS
    ensures Unbroken(run, j, n + 1)
    ensures user.active && user.username in run.requests[n].users && run.requests[n].users[user.username] == user
  {
    ValidIsStepwise(verify, run);
    assert Rendered(run.gates[n], run.requests[n], run.gates[n + 1], run.outcomes[n]);
    j, user := EverySessionIsBacked(run, n);
    UnbrokenExtends(run, j, n);
    assert IsUsername(user.username) by { assert Usable(run.requests[j].users); }
    CurrentIsSame(run.gates[n].session.value, user, run.requests[n].users);
  }

  /** The bootstrap preview is shown exactly when access is required, the registry is empty
      and the preview is enabled; never once the registry holds a user. */
  lemma {:induction false} PreviewOnlyWithoutUsers(verify: Verifier, g: Gate, r: Request)
    ensures Render(verify, g, r).1 == Answer(Decision(Preview, BootstrapPreview)) <==>
              r.required && r.users == map[] && r.preview
  {
  }

  // ------------------------------------------------ wrong passwords over a run

  /** The rendering comes to the login page. */
  predicate ReachesLogin(g: Gate, r: Request) {
    var decision := EvaluateAccess(r, g.session);
    decision.mode == Login || (decision.mode == Authenticated && TimeStatus(g.session.value, r.checkAt) != Fine)
  }

  /** The visitor submits a name and a password that do not authenticate. */
  predicate WrongPassword(verify: Verifier, g: Gate, r: Request) {
    ReachesLogin(g, r) && r.form.Some? && Authenticate(verify, r.form.value.0, r.form.value.1, r.users).None?
  }

  function VisitOf(r: Request): LoginThrottle.Visit { LoginThrottle.Visit(r.pageAt, r.submitAt) }

  /** A login blanks the throttle, a wrong password moves it as `LoginThrottle.Visited`
      says, and nothing else touches it. */
  lemma {:induction false} ThrottleMoves(verify: Verifier, g: Gate, r: Request)
    ensures var (g', outcome) := Render(verify, g, r);
            g'.throttle == if outcome.LoginRerun? then LoginThrottle.Blank
                           else if WrongPassword(verify, g, r) then LoginThrottle.Visited(g.throttle, VisitOf(r))
                           else g.throttle
  {
  }

  function VisitAt(run: Run): nat -> LoginThrottle.Visit {
    (i: nat) => if i < |run.requests| then VisitOf(run.requests[i]) else LoginThrottle.Visit(0, 0)
  }

  function WrongAt(verify: Verifier, run: Run): nat -> bool {
    (i: nat) => i < |run.requests| && i < |run.gates| && WrongPassword(verify, run.gates[i], run.requests[i])
  }

  function Throttles(gates: seq<Gate>): (states: seq<LoginThrottle.State>)
    ensures |states| == |gates| && forall i | 0 <= i < |gates| :: states[i] == gates[i].throttle
  {
    if gates == [] then [] else Throttles(gates[..|gates| - 1]) + [gates[|gates| - 1].throttle]
  }

  /** The times of the wrong passwords from step `a` up to step `b` that the gate counted. */
  function CountedFailures(verify: Verifier, run: Run, a: nat, b: nat): seq<nat>
    requires a <= b < |run.gates|
  {
    LoginThrottle.CountedAmong(Throttles(run.gates), VisitAt(run), WrongAt(verify, run), a, b)
  }

  /** The clock does not go back from one rendering to the next. */
  ghost predicate Clocked(run: Run) {
    forall i, j | 0 <= i < j < |run.requests| :: run.requests[i].submitAt <= run.requests[j].checkAt
  }

  /** From step `a`, the first of the session or the one after a login, nobody logs in
      before step `b`. */
  ghost predicate NoLogin(run: Run, a: nat, b: nat)
    requires |run.requests| == |run.outcomes|
  {
    && a <= b <= |run.requests| && (a == 0 || run.outcomes[a - 1].LoginRerun?)
    && forall i | a <= i < b :: !run.outcomes[i].LoginRerun?
  }

  lemma {:induction false} StartsBlank(verify: Verifier, run: Run, a: nat)
    requires run.Valid(verify) && a <= |run.requests| && (a == 0 || run.outcomes[a - 1].LoginRerun?)
    ensures run.gates[a].throttle == LoginThrottle.Blank
  {
    if a > 0 { ThrottleMoves(verify, run.gates[a - 1], run.requests[a - 1]); }
  }

  lemma {:induction false} StepThrottle(verify: Verifier, run: Run, i: nat)
    requires run.Valid(verify) && i < |run.requests| && !run.outcomes[i].LoginRerun?
    ensures LoginThrottle.Moves(Throttles(run.gates), VisitAt(run), WrongAt(verify, run), i)
  {
    ThrottleMoves(verify, run.gates[i], run.requests[i]);
    assert (run.gates[i + 1], run.outcomes[i]) == Render(verify, run.gates[i], run.requests[i]);
  }

  lemma {:induction false} VisitsAreClocked(verify: Verifier, run: Run, a: nat, b: nat)
    requires run.Valid(verify) && Clocked(run) && a <= b <= |run.requests|
    ensures forall i: nat | a <= i < b :: VisitAt(run)(i).pageAt <= VisitAt(run)(i).submitAt
    ensures forall i: nat, j: nat | a <= i < j < b :: VisitAt(run)(i).submitAt <= VisitAt(run)(j).pageAt
  {
    forall i: nat | a <= i < b ensures VisitAt(run)(i).pageAt <= VisitAt(run)(i).submitAt { assert run.requests[i].Forward(); }
    forall i: nat, j: nat | a <= i < j < b
      ensures VisitAt(run)(i).submitAt <= VisitAt(run)(j).pageAt
    {
      assert run.requests[j].Forward();
    }
  }

  /** In every run whose clock does not go back, the wrong passwords that the gate counts
      between two logins are at most five in any half-open window of 300 seconds, and the
      throttle it stores has fewer than five attempts or a lock. */
  lemma {:induction false} FewFailuresBetweenLogins(verify: Verifier, run: Run, a: nat, b: nat, start: int)
    requires run.Valid(verify) && Clocked(run) && NoLogin(run, a, b)
    ensures LoginThrottle.CountInWindow(CountedFailures(verify, run, a, b), start) <= LoginThrottle.MAX_FAILED_ATTEMPTS
    ensures var s := run.gates[b].throttle; s.Counted? ==> s.attempts < LoginThrottle.MAX_FAILED_ATTEMPTS || s.lockUntil > 0
  {
    StartsBlank(verify, run, a);
    forall i: nat | a <= i < b
      ensures LoginThrottle.Moves(Throttles(run.gates), VisitAt(run), WrongAt(verify, run), i)
    {
      StepThrottle(verify, run, i);
    }
    LoginThrottle.FoldedVisits(Throttles(run.gates), VisitAt(run), WrongAt(verify, run), a, b);
    VisitsAreClocked(verify, run, a, b);
    LoginThrottle.AmongIsOrdered(VisitAt(run), WrongAt(verify, run), a, b);
    LoginThrottle.AtMostFiveAWindow(LoginThrottle.Among(VisitAt(run), WrongAt(verify, run), a, b), start);
  }
}
