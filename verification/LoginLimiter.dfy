/** The login limiter: a pruned list of failures per user name against the full history of attempts. */
module LoginLimiter {
  import opened Texts

  /** `VERIFIER_RAISED` stands for an exception of the second-factor verifier. */
  datatype Outcome = RATE_LIMITED | INVALID_CREDENTIALS | SECOND_FACTOR_REQUIRED | VERIFIER_RAISED | LOGGED_IN
  datatype Attempt = Attempt(at: real, outcome: Outcome)
  type History = seq<Attempt>

  /** The length of the window. */
  type Span = r: real | 0.0 <= r witness 0.0

  // ----- the specification: the full history -----

  /** The times of the recorded failures since the last login. */
  function Failures(h: History): seq<real> {
    if h == [] then []
    else
      var earlier, last := Failures(h[..|h| - 1]), h[|h| - 1];
      match last.outcome
      case LOGGED_IN => []
      case INVALID_CREDENTIALS => earlier + [last.at]
      case _ => earlier
  }

  /** The times that are not before the cutoff. */
  function Since(ts: seq<real>, cutoff: real): seq<real> {
    if ts == [] then []
    else Since(ts[..|ts| - 1], cutoff) + (if ts[|ts| - 1] >= cutoff then [ts[|ts| - 1]] else [])
  }

  /** Too many failures since the last login are still inside the window. */
  predicate Limited(h: History, limit: nat, window: Span, now: real) {
    |Since(Failures(h), now - window)| >= limit
  }

  ghost predicate Ordered(h: History) {
    forall i, j | 0 <= i < j < |h| :: h[i].at <= h[j].at
  }

  /** A history that the limiter can produce under a clock that never goes back: an attempt is turned
      away exactly when the attempts before it exceed the limit. */
  ghost predicate Legal(h: History, limit: nat, window: Span)
    decreases |h|, 1
  {
    h == [] || LegalStep(h[..|h| - 1], h[|h| - 1], limit, window)
  }

  ghost predicate LegalStep(h: History, a: Attempt, limit: nat, window: Span)
    decreases |h|, 2
  {
    && Legal(h, limit, window) && (h != [] ==> h[|h| - 1].at <= a.at)
    && (a.outcome == RATE_LIMITED <==> Limited(h, limit, window, a.at))
  }

  lemma {:induction false} LegalIsOrdered(h: History, limit: nat, window: Span)
    requires Legal(h, limit, window)
    ensures Ordered(h)
  {
    if h != [] {
      LegalIsOrdered(h[..|h| - 1], limit, window);
    }
  }

  // ----- the pruned list -----

  ghost predicate Sorted(ts: seq<real>) {
    forall i, j | 0 <= i < j < |ts| :: ts[i] <= ts[j]
  }

  lemma {:induction false} FailuresOrdered(h: History)
    requires Ordered(h)
    ensures Sorted(Failures(h))
    ensures forall i | 0 <= i < |Failures(h)| :: h != [] && Failures(h)[i] <= h[|h| - 1].at
  {
    if h != [] {
      FailuresOrdered(h[..|h| - 1]);
    }
  }

  /** Pruning twice with a growing cutoff is pruning once. */
  lemma {:induction false} PruneTwice(ts: seq<real>, c: real, d: real)
    requires c <= d
    ensures Since(Since(ts, c), d) == Since(ts, d)
  {
    if ts != [] {
      var init, last := ts[..|ts| - 1], ts[|ts| - 1];
      PruneTwice(init, c, d);
      if last >= c {
        assert (Since(init, c) + [last])[..|Since(init, c)|] == Since(init, c);
      } else {
        assert Since(ts, c) == Since(init, c);
      }
    }
  }

  /** For ordered times, m of them are inside the window exactly when the m-th latest is. */
  lemma {:induction false} SinceCounts(ts: seq<real>, cutoff: real, m: nat)
    requires Sorted(ts) && 0 < m
    ensures |Since(ts, cutoff)| <= |ts|
    ensures |Since(ts, cutoff)| >= m <==> |ts| >= m && ts[|ts| - m] >= cutoff
  {
    if ts != [] {
      var init := ts[..|ts| - 1];
      if m > 1 {
        SinceCounts(init, cutoff, m - 1);
      } else {
        SinceCounts(init, cutoff, 1);
      }
    }
  }

  // ----- what the limiter guarantees -----

  function CountOf(h: History, o: Outcome): nat {
    if h == [] then 0 else CountOf(h[..|h| - 1], o) + if h[|h| - 1].outcome == o then 1 else 0
  }

  /** The failures of a stretch without a login are among the failures since the last login. */
  lemma {:induction false} StretchIsListed(h: History, i: nat, cutoff: real)
    requires Ordered(h) && i <= |h| && CountOf(h[i..], LOGGED_IN) == 0 && (i < |h| ==> h[i].at >= cutoff)
    ensures CountOf(h[i..], INVALID_CREDENTIALS) <= |Since(Failures(h), cutoff)|
    decreases |h|
  {
    if i < |h| {
      var init := h[..|h| - 1];
      assert h[i..][..|h| - i - 1] == init[i..];
      StretchIsListed(init, i, cutoff);
      if h[|h| - 1].outcome == INVALID_CREDENTIALS {
        assert (Failures(init) + [h[|h| - 1].at])[..|Failures(init)|] == Failures(init);
      }
    }
  }

  /** One failure less than the limit for each login. */
  function Spared(limit: nat, logins: nat): nat {
    if limit == 0 || logins == 0 then 0 else Spared(limit, logins - 1) + limit - 1
  }

  /** The attempts of a stretch keep the budget. */
  predicate Within(stretch: History, limit: nat, extra: nat) {
    CountOf(stretch, INVALID_CREDENTIALS) <= extra + Spared(limit, CountOf(stretch, LOGGED_IN))
  }

  /** In a stretch that fits one window, every login pays for one failure less than the limit. */
  lemma {:induction false} WindowBudget(h: History, i: nat, limit: nat, window: Span)
    requires Legal(h, limit, window) && i < |h| && h[|h| - 1].at - h[i].at <= window
    ensures Within(h[i..], limit, if h[|h| - 1].outcome == LOGGED_IN then 0 else limit)
    decreases |h|, 0
  {
    var n := |h| - 1;
    var last := h[n];
    assert h[i..][..n - i] == h[..n][i..];
    PrefixLegal(h, n, limit, window);
    if last.outcome == INVALID_CREDENTIALS || last.outcome == LOGGED_IN {
      BeforeAnAttempt(h[..n], i, limit, window, last.at);
    } else if i < n {
      assert h[n - 1].at <= h[n].at;
      WindowBudget(h[..n], i, limit, window);
    }
    AttemptUsesBudget(h[i..], limit);
  }

  lemma AttemptUsesBudget(s: History, limit: nat)
    requires s != []
    requires var last := s[|s| - 1].outcome;
      if last == INVALID_CREDENTIALS || last == LOGGED_IN then limit > 0 && Within(s[..|s| - 1], limit, limit - 1)
      else Within(s[..|s| - 1], limit, limit)
    ensures Within(s, limit, if s[|s| - 1].outcome == LOGGED_IN then 0 else limit)
  {
  }

  lemma {:induction false} PrefixLegal(h: History, n: nat, limit: nat, window: Span)
    requires Legal(h, limit, window) && n <= |h|
    ensures Legal(h[..n], limit, window)
  {
    if n < |h| {
      assert h[..|h| - 1][..n] == h[..n];
      PrefixLegal(h[..|h| - 1], n, limit, window);
    } else {
      assert h[..n] == h;
    }
  }

  /** When an attempt is let through, the stretch before it is one failure below its budget. */
  lemma {:induction false} BeforeAnAttempt(h: History, i: nat, limit: nat, window: Span, now: real)
    requires Legal(h, limit, window) && i <= |h| && !Limited(h, limit, window, now)
    requires i < |h| ==> h[i].at >= now - window && h[|h| - 1].at <= now
    ensures limit > 0 && Within(h[i..], limit, limit - 1)
    decreases |h|, 1
  {
    var j := LastLogin(h, i);
    InOrder(h, i, j, limit, window);
    TailIsListed(h, j, limit, window, now);
    if j > i {
      InOrder(h, j - 1, |h| - 1, limit, window);
      PrefixLegal(h, j, limit, window);
      WindowBudget(h[..j], i, limit, window);
      assert h[i..] == h[..j][i..] + h[j..];
      BudgetsAdd(h[..j][i..], h[j..], limit);
    }
  }

  lemma InOrder(h: History, i: nat, j: nat, limit: nat, window: Span)
    requires Legal(h, limit, window) && i <= j
    ensures j < |h| ==> h[i].at <= h[j].at
  {
    LegalIsOrdered(h, limit, window);
  }

  /** After the last login, an attempt that is let through sees fewer failures than the limit. */
  lemma TailIsListed(h: History, j: nat, limit: nat, window: Span, now: real)
    requires Legal(h, limit, window) && j <= |h| && CountOf(h[j..], LOGGED_IN) == 0
    requires !Limited(h, limit, window, now) && (j < |h| ==> h[j].at >= now - window)
    ensures limit > 0 && CountOf(h[j..], INVALID_CREDENTIALS) <= limit - 1
  {
    LegalIsOrdered(h, limit, window);
    StretchIsListed(h, j, now - window);
  }

  lemma BudgetsAdd(a: History, b: History, limit: nat)
    requires limit > 0 && Within(a, limit, 0)
    requires CountOf(b, LOGGED_IN) == 0 && CountOf(b, INVALID_CREDENTIALS) <= limit - 1
    ensures Within(a + b, limit, limit - 1)
  {
    CountSplits(a, b, INVALID_CREDENTIALS);
    CountSplits(a, b, LOGGED_IN);
  }

  /** The index after the last login of the stretch, or its start. */
  function LastLogin(h: History, i: nat): (j: nat)
    requires i <= |h|
    ensures i <= j <= |h| && CountOf(h[j..], LOGGED_IN) == 0 && (j > i ==> h[j - 1].outcome == LOGGED_IN)
    decreases |h|
  {
    if i == |h| || h[|h| - 1].outcome == LOGGED_IN then |h|
    else
      var j := LastLogin(h[..|h| - 1], i);
      assert h[j..][..|h| - 1 - j] == h[..|h| - 1][j..];
      j
  }

  lemma {:induction false} CountSplits(a: History, b: History, o: Outcome)
    ensures CountOf(a + b, o) == CountOf(a, o) + CountOf(b, o)
  {
    if b == [] {
      assert a + b == a;
    } else {
      assert (a + b)[..|a + b| - 1] == a + b[..|b| - 1];
      CountSplits(a, b[..|b| - 1], o);
    }
  }

  /** The stretch fits one closed window. */
  predicate Fits(h: History, i: nat, j: nat, window: Span) {
    i < j <= |h| && h[j - 1].at - h[i].at <= window
  }

  function FailuresIn(h: History, i: nat, j: nat): nat
    requires i <= j <= |h|
  {
    CountOf(h[i..j], INVALID_CREDENTIALS)
  }

  function LoginsIn(h: History, i: nat, j: nat): nat
    requires i <= j <= |h|
  {
    CountOf(h[i..j], LOGGED_IN)
  }

  lemma {:induction false} SparedIs(limit: nat, logins: nat)
    requires limit > 0
    ensures Spared(limit, logins) == logins * (limit - 1)
  {
    if logins > 0 {
      SparedIs(limit, logins - 1);
    }
  }

  /** Every closed window of every legal history: at most the limit without a login in between, and
      each login in between allows one failure less than the limit on top. */
  lemma EveryWindow(h: History, i: nat, j: nat, limit: nat, window: Span)
    requires Legal(h, limit, window) && Fits(h, i, j, window)
    ensures LoginsIn(h, i, j) == 0 ==> FailuresIn(h, i, j) <= limit
    ensures FailuresIn(h, i, j) <= limit + LoginsIn(h, i, j) * (if limit > 0 then limit - 1 else 0)
  {
    PrefixLegal(h, j, limit, window);
    assert h[..j][i..] == h[i..j];
    WindowBudget(h[..j], i, limit, window);
    if limit > 0 {
      SparedIs(limit, LoginsIn(h, i, j));
    }
  }

  // ----- when a window never exceeds the limit at all -----

  ghost predicate NeverMoreThanTheLimit(limit: nat, window: Span) {
    forall h: History, i: nat, j: nat | Legal(h, limit, window) && Fits(h, i, j, window) :: FailuresIn(h, i, j) <= limit
  }

  lemma OneMoreFailure(h: History, limit: nat, window: Span)
    requires Legal(h, limit, window) && (forall k | 0 <= k < |h| :: h[k].at == 0.0) && |Failures(h)| < limit
    ensures var after := h + [Attempt(0.0, INVALID_CREDENTIALS)];
      && Legal(after, limit, window) && |Failures(after)| == |Failures(h)| + 1
      && CountOf(after, INVALID_CREDENTIALS) == CountOf(h, INVALID_CREDENTIALS) + 1
  {
    var next := Attempt(0.0, INVALID_CREDENTIALS);
    FewerSince(Failures(h), 0.0 - window);
    LegalGrows(h, next, limit, window);
    assert (h + [next])[..|h|] == h;
  }

  lemma OneLogin(h: History, limit: nat, window: Span)
    requires Legal(h, limit, window) && (forall k | 0 <= k < |h| :: h[k].at == 0.0) && |Failures(h)| < limit
    ensures var after := h + [Attempt(0.0, LOGGED_IN)];
      Legal(after, limit, window) && Failures(after) == []
        && CountOf(after, INVALID_CREDENTIALS) == CountOf(h, INVALID_CREDENTIALS)
  {
    FewerSince(Failures(h), 0.0 - window);
    LegalGrows(h, Attempt(0.0, LOGGED_IN), limit, window);
    assert (h + [Attempt(0.0, LOGGED_IN)])[..|h|] == h;
  }

  /** A failure, a login and `n` more failures, all at one instant. */
  lemma {:induction false} Burst(n: nat, limit: nat, window: Span) returns (h: History)
    requires 2 <= limit && n <= limit
    ensures h != [] && (forall k | 0 <= k < |h| :: h[k].at == 0.0) && Legal(h, limit, window)
    ensures |Failures(h)| == n && CountOf(h, INVALID_CREDENTIALS) == n + 1
  {
    if n == 0 {
      OneMoreFailure([], limit, window);
      h := [] + [Attempt(0.0, INVALID_CREDENTIALS)];
      OneLogin(h, limit, window);
      h := h + [Attempt(0.0, LOGGED_IN)];
    } else {
      h := Burst(n - 1, limit, window);
      OneMoreFailure(h, limit, window);
      h := h + [Attempt(0.0, INVALID_CREDENTIALS)];
    }
  }

  /** Counting across logins, the limit holds for every window of every history exactly when it is
      zero or one: a login forgets the failures before it. */
  lemma LimitHoldsExactly(limit: nat, window: Span)
    ensures NeverMoreThanTheLimit(limit, window) <==> limit <= 1
  {
    if limit <= 1 {
      forall h: History, i: nat, j: nat | Legal(h, limit, window) && Fits(h, i, j, window)
        ensures FailuresIn(h, i, j) <= limit
      {
        EveryWindow(h, i, j, limit, window);
      }
    } else {
      var h := Burst(limit, limit, window);
      assert h[0..|h|] == h;
      assert Fits(h, 0, |h|, window) && FailuresIn(h, 0, |h|) == limit + 1;
    }
  }

  // ----- lockouts end -----

  /** For ordered times the retained ones are the latest. */
  lemma {:induction false} SinceIsSuffix(ts: seq<real>, cutoff: real)
    requires Sorted(ts)
    ensures |Since(ts, cutoff)| <= |ts| && Since(ts, cutoff) == ts[|ts| - |Since(ts, cutoff)|..]
  {
    if ts != [] {
      var n := |ts| - 1;
      SinceIsSuffix(ts[..n], cutoff);
      var k := |Since(ts[..n], cutoff)|;
      if ts[n] >= cutoff {
        assert ts[n - k..] == ts[..n][n - k..] + [ts[n]];
      } else {
        SinceCounts(ts[..n], cutoff, 1);
        assert k == 0;
      }
    }
  }

  /** The failures that are still listed after the last attempt. */
  function Listed(h: History, window: Span): seq<real> {
    if h == [] then [] else Since(Failures(h), h[|h| - 1].at - window)
  }

  /** No more failures than the limit are ever listed. */
  lemma {:induction false} ListedAtMostLimit(h: History, limit: nat, window: Span)
    requires Legal(h, limit, window)
    ensures |Listed(h, window)| <= limit
  {
    if h != [] {
      var init, last := h[..|h| - 1], h[|h| - 1];
      ListedAtMostLimit(init, limit, window);
      PrunedAgain(init, limit, window, last.at);
      NextListed(init, last, window);
      assert init + [last] == h;
    }
  }

  /** Pruning the list is pruning the history. */
  lemma PrunedAgain(h: History, limit: nat, window: Span, now: real)
    requires Legal(h, limit, window) && (h != [] ==> h[|h| - 1].at <= now)
    ensures Since(Listed(h, window), now - window) == Since(Failures(h), now - window)
    ensures |Since(Failures(h), now - window)| <= |Listed(h, window)|
  {
    if h != [] {
      PruneTwice(Failures(h), h[|h| - 1].at - window, now - window);
    }
    FewerSince(Listed(h, window), now - window);
  }

  lemma {:induction false} FewerSince(ts: seq<real>, cutoff: real)
    ensures |Since(ts, cutoff)| <= |ts|
  {
    if ts != [] {
      FewerSince(ts[..|ts| - 1], cutoff);
    }
  }

  /** The list after one more attempt, from the pruned list before it. */
  lemma NextListed(h: History, a: Attempt, window: Span)
    ensures var pruned := Since(Failures(h), a.at - window);
      Listed(h + [a], window) == match a.outcome
        case LOGGED_IN => []
        case INVALID_CREDENTIALS => pruned + [a.at]
        case _ => pruned
  {
    assert (h + [a])[..|h|] == h;
    if a.outcome == INVALID_CREDENTIALS {
      assert (Failures(h) + [a.at])[..|Failures(h)|] == Failures(h);
    }
  }

  lemma {:induction false} TurnedAwayIsForgotten(h: History, more: History)
    requires forall a | a in more :: a.outcome == RATE_LIMITED
    ensures Failures(h + more) == Failures(h)
  {
    if more == [] {
      assert h + more == h;
    } else {
      assert (h + more)[..|h + more| - 1] == h + more[..|more| - 1];
      TurnedAwayIsForgotten(h, more[..|more| - 1]);
    }
  }

  /** A lockout ends exactly when the oldest listed failure leaves the window, whatever is tried meanwhile. */
  lemma {:induction false} LockoutEnds(h: History, more: History, limit: nat, window: Span, now: real, later: real)
    requires Legal(h, limit, window) && 0 < limit && Limited(h, limit, window, now) && now <= later
    requires h != [] ==> h[|h| - 1].at <= now
    requires forall a | a in more :: a.outcome == RATE_LIMITED
    ensures var listed := Since(Failures(h), now - window);
      |listed| == limit && (Limited(h + more, limit, window, later) <==> later <= listed[0] + window)
  {
    LimitedIsFull(h, limit, window, now);
    TurnedAwayIsForgotten(h, more);
    LaterCutoff(Failures(h), now - window, later - window, limit);
  }

  lemma LimitedIsFull(h: History, limit: nat, window: Span, now: real)
    requires Legal(h, limit, window) && Limited(h, limit, window, now) && (h != [] ==> h[|h| - 1].at <= now)
    ensures |Since(Failures(h), now - window)| == limit && Sorted(Failures(h))
  {
    LegalIsOrdered(h, limit, window);
    FailuresOrdered(h);
    ListedAtMostLimit(h, limit, window);
    PrunedAgain(h, limit, window, now);
  }

  lemma LaterCutoff(ts: seq<real>, c: real, d: real, m: nat)
    requires Sorted(ts) && 0 < m && c <= d && |Since(ts, c)| == m
    ensures |Since(ts, d)| >= m <==> d <= Since(ts, c)[0]
  {
    SinceIsSuffix(ts, c);
    SinceCounts(ts, d, m);
  }

  // ----- the service -----

  datatype User = User(username: string, enabled: bool, requires2fa: bool)

  class AuthService {
    const users: seq<User>
    const passwordMatches: (User, string) -> bool
    /** The second factor, when one is configured; Refused when it raises. */
    const otpVerifier: Option<(User, string) -> Result<bool>>
    const maxFailedAttempts: nat
    const attemptWindow: Span
    /** The pruned failures per user name. */
    var failedAttempts: map<string, seq<real>>
    /** Every attempt per user name. */
    ghost var attempts: map<string, History>

    ghost function HistoryOf(username: string): History
      reads this`attempts
    {
      if username in attempts then attempts[username] else []
    }

    function ListOf(username: string): seq<real>
      reads this`failedAttempts
    {
      if username in failedAttempts then failedAttempts[username] else []
    }

    /** Every list is its history, pruned; no empty list is kept. */
    ghost predicate Valid()
      reads this
    {
      && (forall u :: Agrees(u))
      && (forall u | u in failedAttempts :: failedAttempts[u] != [])
    }

    ghost predicate Agrees(u: string)
      reads this
    {
      Legal(HistoryOf(u), maxFailedAttempts, attemptWindow) && ListOf(u) == Listed(HistoryOf(u), attemptWindow)
    }

    constructor (users: seq<User>, passwordMatches: (User, string) -> bool,
        otpVerifier: Option<(User, string) -> Result<bool>>,
                 maxFailedAttempts: nat, attemptWindow: Span)
      ensures Valid() && failedAttempts == map[] && attempts == map[]
      ensures this.maxFailedAttempts == maxFailedAttempts && this.attemptWindow == attemptWindow && this.users == users
    {
      this.users, this.passwordMatches, this.otpVerifier := users, passwordMatches, otpVerifier;
      this.maxFailedAttempts, this.attemptWindow := maxFailedAttempts, attemptWindow;
      failedAttempts, attempts := map[], map[];
    }

    /** The clock does not go back behind the last attempt of this user name. */
    ghost predicate ClockAt(username: string, now: real)
      reads this
    {
      var h := HistoryOf(username);
      h != [] ==> h[|h| - 1].at <= now
    }

    method PruneAttempts(username: string, now: real)
      requires Valid() && ClockAt(username, now)
      modifies this`failedAttempts
      ensures ListOf(username) == Since(Failures(HistoryOf(username)), now - attemptWindow)
      ensures forall u | u != username :: ListOf(u) == old(ListOf(u))
      ensures forall u | u in failedAttempts :: failedAttempts[u] != []
    {
      assert Agrees(username);
      PrunedAgain(HistoryOf(username), maxFailedAttempts, attemptWindow, now);
      var kept := Since(ListOf(username), now - attemptWindow);
      if kept != [] {
        failedAttempts := failedAttempts[username := kept];
      } else {
        failedAttempts := failedAttempts - {username};
      }
    }

    /** The user with this name. */
    function FindUser(username: string): (u: Option<User>)
      ensures u.Some? ==> u.value in users && u.value.username == username
      ensures u == None ==> forall v | v in users :: v.username != username
    {
      First(users, username)
    }

    static function First(users: seq<User>, username: string): (u: Option<User>)
      ensures u.Some? ==> u.value in users && u.value.username == username
      ensures u == None ==> forall v | v in users :: v.username != username
    {
      if users == [] then None
      else if users[0].username == username then Some(users[0])
      else First(users[1..], username)
    }

    /** The second factor is met: none is asked for, or the verifier accepts the one that is given. */
    predicate FactorMet(u: User, otp: Option<string>) {
      u.requires2fa ==> otpVerifier.Some? && otp.Some? && otpVerifier.value(u, otp.value) == Ok(true)
    }

    predicate FactorRaises(u: User, otp: Option<string>) {
      u.requires2fa && otpVerifier.Some? && otp.Some? && otpVerifier.value(u, otp.value) == Refused
    }

    /** Which outcome answers an attempt of this user, if there is one. */
    predicate Answers(outcome: Outcome, limited: bool, u: Option<User>, password: string, otp: Option<string>) {
      && (outcome == RATE_LIMITED <==> limited)
      && (outcome == INVALID_CREDENTIALS <==>
            !limited && (u == None || !u.value.enabled || !passwordMatches(u.value, password)))
      && (outcome == LOGGED_IN <==> !limited && outcome != INVALID_CREDENTIALS && FactorMet(u.value, otp))
      && (outcome == VERIFIER_RAISED <==> !limited && outcome != INVALID_CREDENTIALS && FactorRaises(u.value, otp))
    }

    /** One attempt, judged by the whole history: a limited user name is turned away unseen, only wrong
        credentials are recorded, a missing second factor or a raising verifier changes nothing and a
        login forgets the list. */
    method Login(username: string, password: string, otp: Option<string>, now: real) returns (outcome: Outcome)
      requires Valid() && ClockAt(username, now)
      modifies this
      ensures Valid()
      ensures attempts == old(attempts)[username := old(HistoryOf(username)) + [Attempt(now, outcome)]]
      ensures forall u | u != username :: ListOf(u) == old(ListOf(u))
      ensures Answers(outcome, Limited(old(HistoryOf(username)), maxFailedAttempts, attemptWindow, now),
                FindUser(username), password, otp)
      ensures outcome == SECOND_FACTOR_REQUIRED || outcome == VERIFIER_RAISED ==>
        ListOf(username) == Since(Failures(old(HistoryOf(username))), now - attemptWindow)
    {
      assert Agrees(username) && OthersAgree(username);
      PruneAttempts(username, now);
      OthersStay(username);
      outcome := Judge(username, password, otp);
      Conclude(username, Attempt(now, outcome));
    }

    /** The outcome is written into the list and into the history. */
    method Conclude(username: string, a: Attempt)
      requires LegalStep(HistoryOf(username), a, maxFailedAttempts, attemptWindow)
      requires ListOf(username) == Since(Failures(HistoryOf(username)), a.at - attemptWindow)
      requires OthersAgree(username)
      requires forall u | u in failedAttempts :: failedAttempts[u] != []
      modifies this
      ensures Valid() && attempts == old(attempts)[username := old(HistoryOf(username)) + [a]]
      ensures forall u | u != username :: ListOf(u) == old(ListOf(u))
      ensures a.outcome != INVALID_CREDENTIALS && a.outcome != LOGGED_IN ==> ListOf(username) == old(ListOf(username))
    {
      Settle(username, a);
      OthersStay(username);
      Remember(username, a);
    }

    /** The outcome, after the list was pruned. */
    method Judge(username: string, password: string, otp: Option<string>) returns (outcome: Outcome)
      ensures Answers(outcome, |ListOf(username)| >= maxFailedAttempts, FindUser(username), password, otp)
    {
      var user := FindUser(username);
      if |ListOf(username)| >= maxFailedAttempts {
        outcome := RATE_LIMITED;
      } else if user == None || !user.value.enabled || !passwordMatches(user.value, password) {
        outcome := INVALID_CREDENTIALS;
      } else if !user.value.requires2fa {
        outcome := LOGGED_IN;
      } else if otpVerifier == None || otp == None {
        outcome := SECOND_FACTOR_REQUIRED;
      } else {
        var verdict := otpVerifier.value(user.value, otp.value);
        outcome :=
          if verdict == Refused then VERIFIER_RAISED
          else if verdict.value then LOGGED_IN
          else SECOND_FACTOR_REQUIRED;
      }
    }

    /** What an outcome does to the pruned list. */
    method Settle(username: string, a: Attempt)
      requires ListOf(username) == Since(Failures(HistoryOf(username)), a.at - attemptWindow)
      requires forall u | u in failedAttempts :: failedAttempts[u] != []
      modifies this`failedAttempts
      ensures ListOf(username) == Listed(HistoryOf(username) + [a], attemptWindow)
      ensures forall u | u != username :: ListOf(u) == old(ListOf(u))
      ensures forall u | u in failedAttempts :: failedAttempts[u] != []
      ensures a.outcome != INVALID_CREDENTIALS && a.outcome != LOGGED_IN ==> failedAttempts == old(failedAttempts)
    {
      NextListed(HistoryOf(username), a, attemptWindow);
      if a.outcome == INVALID_CREDENTIALS {
        failedAttempts := failedAttempts[username := ListOf(username) + [a.at]];
      } else if a.outcome == LOGGED_IN {
        failedAttempts := failedAttempts - {username};
      }
    }

    /** The attempt joins the history; the lists already agree with it. */
    ghost method Remember(username: string, a: Attempt)
      requires LegalStep(HistoryOf(username), a, maxFailedAttempts, attemptWindow)
      requires ListOf(username) == Listed(HistoryOf(username) + [a], attemptWindow)
      requires OthersAgree(username)
      requires forall u | u in failedAttempts :: failedAttempts[u] != []
      modifies this`attempts
      ensures Valid() && attempts == old(attempts)[username := old(HistoryOf(username)) + [a]]
    {
      LegalGrows(HistoryOf(username), a, maxFailedAttempts, attemptWindow);
      attempts := attempts[username := HistoryOf(username) + [a]];
      OthersStay(username);
      assert Agrees(username);
    }

    ghost predicate OthersAgree(username: string)
      reads this
    {
      forall u | u != username :: Agrees(u)
    }

    /** Lists and histories that did not change still agree. */
    twostate lemma OthersStay(username: string)
      requires old(OthersAgree(username))
      requires forall u | u != username :: ListOf(u) == old(ListOf(u)) && HistoryOf(u) == old(HistoryOf(u))
      ensures OthersAgree(username)
    {
      forall u | u != username ensures Agrees(u) {
        assert old(Agrees(u));
      }
    }
  }

  lemma LegalGrows(h: History, a: Attempt, limit: nat, window: Span)
    requires Legal(h, limit, window) && (h != [] ==> h[|h| - 1].at <= a.at)
    requires a.outcome == RATE_LIMITED <==> Limited(h, limit, window, a.at)
    ensures Legal(h + [a], limit, window)
  {
    assert (h + [a])[..|h|] == h;
  }
}
