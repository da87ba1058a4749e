/**
 * The console client's token state: `sessionToken`, `keyManagerToken` and
 * `lastBuild`, refreshed by `BuildTokens` at most once a minute behind a
 * one-slot semaphore. Clock readings and the answers of the two authentication
 * endpoints are parameters.
 */
module TokenGate {
  import opened Wrappers

  /** `TimeSpan.FromMinutes(1)` in ticks of 100 nanoseconds; times are tick counts. */
  const OneMinute: int := 600_000_000

  /** Why an authentication call raised instead of returning a token. */
  datatype AuthError = AuthServiceError | AuthTransportError

  /** The three fields; a `None` token is a null string and a `None` `lastBuild` is `default(DateTimeOffset)`. */
  datatype TokenState = TokenState(sessionToken: Option<string>, keyManagerToken: Option<string>, lastBuild: Option<int>)

  /** `CanGoIn`: no build yet, or strictly more than a minute since the last one. */
  predicate CanGoIn(lastBuild: Option<int>, now: int)
  {
    lastBuild.None? || now - lastBuild.value > OneMinute
  }

  /**
   * The gate is open before the first build. After a build recorded at `last`,
   * it is shut for the whole following minute, the boundary included, and once
   * it opens it stays open until the next build.
   */
  lemma GateWindow(last: int, now: int, later: int)
    ensures CanGoIn(None, now)
    ensures now <= last + OneMinute ==> !CanGoIn(Some(last), now)
    ensures CanGoIn(Some(last), now) && now <= later ==> CanGoIn(Some(last), later)
  {
  }

  /**
   * What one `BuildTokens` call observes: the clock at the first check, after
   * taking the semaphore and when recording `lastBuild`, and what the session and
   * key-manager endpoints answer if called.
   */
  datatype BuildInputs = BuildInputs(
    nowOnEntry: int,
    nowAfterLock: int,
    nowAtEnd: int,
    sessionAuth: Result<string, AuthError>,
    keyAuth: Result<string, AuthError>)

  /** The new token state, whether the call raised, how many endpoint calls it made, and whether it took the semaphore. */
  datatype BuildResult = BuildResult(tokens: TokenState, outcome: Outcome<AuthError>, authCalls: nat, acquired: bool)

  /** `BuildTokens` as a function of the state before it and what it observes. */
  function Build(t: TokenState, b: BuildInputs): (r: BuildResult)
    ensures r.authCalls <= 2
    ensures r.authCalls > 0 <==> CanGoIn(t.lastBuild, b.nowOnEntry) && CanGoIn(t.lastBuild, b.nowAfterLock)
    ensures !CanGoIn(t.lastBuild, b.nowOnEntry) ==> r == BuildResult(t, Pass, 0, false)
    ensures CanGoIn(t.lastBuild, b.nowOnEntry) ==> r.acquired
    ensures r.authCalls == 0 ==> r.tokens == t && r.outcome == Pass
    ensures r.authCalls > 0 && b.sessionAuth.Failure? ==>
      r.tokens == t && r.outcome == Fail(b.sessionAuth.error) && r.authCalls == 1
    ensures r.authCalls > 0 && b.sessionAuth.Success? && b.keyAuth.Failure? ==>
      r.tokens == t.(sessionToken := Some(b.sessionAuth.value)) && r.outcome == Fail(b.keyAuth.error) && r.authCalls == 2
    ensures r.authCalls > 0 && b.sessionAuth.Success? && b.keyAuth.Success? ==>
      r.tokens == TokenState(Some(b.sessionAuth.value), Some(b.keyAuth.value), Some(b.nowAtEnd)) && r.outcome == Pass && r.authCalls == 2
  {
    if !CanGoIn(t.lastBuild, b.nowOnEntry) then BuildResult(t, Pass, 0, false)
    else if !CanGoIn(t.lastBuild, b.nowAfterLock) then BuildResult(t, Pass, 0, true)
    else
      match b.sessionAuth
      case Failure(e) => BuildResult(t, Fail(e), 1, true)
      case Success(s) =>
        var t1 := t.(sessionToken := Some(s));
        match b.keyAuth
        case Failure(e) => BuildResult(t1, Fail(e), 2, true)
        case Success(k) => BuildResult(t1.(keyManagerToken := Some(k), lastBuild := Some(b.nowAtEnd)), Pass, 2, true)
  }

  /**
   * Two successive calls that both return normally make at most one pair of
   * endpoint calls when the second starts within a minute of the end of the first.
   */
  lemma TwoBuildsWithinAMinute(t: TokenState, b1: BuildInputs, b2: BuildInputs)
    requires Build(t, b1).outcome == Pass
    requires b2.nowOnEntry - b1.nowAtEnd <= OneMinute
    ensures Build(t, b1).authCalls + Build(Build(t, b1).tokens, b2).authCalls <= 2
  {
  }

  class TokenStore {
    var sessionToken: Option<string>
    var keyManagerToken: Option<string>
    var lastBuild: Option<int>
    /** True while `mySemaphoreSlim` is held. */
    var locked: bool

    function State(): TokenState
      reads this
    {
      TokenState(sessionToken, keyManagerToken, lastBuild)
    }

    constructor ()
      ensures State() == TokenState(None, None, None) && !locked
    {
      sessionToken := None;
      keyManagerToken := None;
      lastBuild := None;
      locked := false;
    }

    /**
     * Refreshes both tokens unless `CanGoIn` fails before or after taking the
     * semaphore. The semaphore is released on every path that took it.
     */
    method BuildTokens(b: BuildInputs) returns (outcome: Outcome<AuthError>, authCalls: nat, acquired: bool)
      requires !locked
      modifies this
      ensures !locked
      ensures Build(old(State()), b) == BuildResult(State(), outcome, authCalls, acquired)
    {
      authCalls, acquired := 0, false;
      if !CanGoIn(lastBuild, b.nowOnEntry) {
        return Pass, authCalls, acquired;
      }
      locked, acquired := true, true;
      if !CanGoIn(lastBuild, b.nowAfterLock) {
        locked := false;
        return Pass, authCalls, acquired;
      }
      authCalls := 1;
      if b.sessionAuth.Failure? {
        locked := false;
        return Fail(b.sessionAuth.error), authCalls, acquired;
      }
      sessionToken := Some(b.sessionAuth.value);
      authCalls := 2;
      if b.keyAuth.Failure? {
        locked := false;
        return Fail(b.keyAuth.error), authCalls, acquired;
      }
      keyManagerToken := Some(b.keyAuth.value);
      lastBuild := Some(b.nowAtEnd);
      locked := false;
      outcome := Pass;
    }
  }
}
